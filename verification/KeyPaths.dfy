/**
 Which edits of an object are refused (utils/util.go): a merge patch must not touch any of the
 restricted dotted paths of the object's kind.
 */
module KeyPaths {
  import opened Wrappers
  import opened Strings

  /** A decoded JSON value; everything that is not an object is a leaf, null included. */
  datatype Json = Leaf(text: string) | Object(fields: map<string, Json>)

  lemma ShorterPath(key: string)
    requires |Split(key, '.')| > 1
    ensures |Join(Split(key, '.')[1..], '.')| < |key|
  {
    JoinSplit(key, '.');
  }

  /** checkChainKeyUnchanged; None stands for the panic of its type assertion. */
  function CheckUnchanged(key: string, data: map<string, Json>): Option<bool>
    decreases |key|
  {
    var keys := Split(key, '.');
    if keys[0] !in data || |keys| == 1 then Some(keys[0] !in data)
    else if data[keys[0]].Leaf? then None
    else
      ShorterPath(key);
      CheckUnchanged(Join(keys[1..], '.'), data[keys[0]].fields)
  }

  /** The value a list of segments leads to. */
  function ValueAt(path: seq<string>, j: Json): Option<Json> {
    if path == [] then Some(j)
    else if j.Object? && path[0] in j.fields then ValueAt(path[1..], j.fields[path[0]])
    else None
  }

  /** A proper, non-empty prefix of the path leads to something that is not an object. */
  ghost predicate Blocked(path: seq<string>, j: Json) {
    exists i :: 0 < i < |path| && PrefixIsLeaf(path, i, j)
  }

  predicate PrefixIsLeaf(path: seq<string>, i: nat, j: Json)
    requires i <= |path|
  {
    var v := ValueAt(path[..i], j);
    v.Some? && v.value.Leaf?
  }

  lemma PrefixStep(path: seq<string>, i: nat, j: Json)
    requires 0 < i <= |path| && j.Object? && path[0] in j.fields
    ensures PrefixIsLeaf(path, i, j) <==> PrefixIsLeaf(path[1..], i - 1, j.fields[path[0]])
  {
    assert path[..i][1..] == path[1..][..i - 1];
  }

  lemma BlockedStep(path: seq<string>, j: Json)
    requires |path| > 1 && j.Object?
    ensures path[0] !in j.fields ==> !Blocked(path, j)
    ensures path[0] in j.fields && j.fields[path[0]].Leaf? ==> Blocked(path, j)
    ensures path[0] in j.fields && j.fields[path[0]].Object? ==>
              (Blocked(path, j) <==> Blocked(path[1..], j.fields[path[0]]))
  {
    if path[0] !in j.fields {
      forall i | 0 < i < |path|
        ensures !PrefixIsLeaf(path, i, j)
      {
        assert path[..i][0] == path[0];
      }
    } else {
      var next := j.fields[path[0]];
      forall i | 0 < i <= |path|
        ensures PrefixIsLeaf(path, i, j) <==> PrefixIsLeaf(path[1..], i - 1, next)
      {
        PrefixStep(path, i, j);
      }
      if next.Leaf? {
        assert PrefixIsLeaf(path, 1, j);
      } else {
        assert !PrefixIsLeaf(path[1..], 0, next);
        if Blocked(path[1..], next) {
          var i :| 0 < i < |path[1..]| && PrefixIsLeaf(path[1..], i, next);
          assert PrefixIsLeaf(path, i + 1, j);
        }
      }
    }
  }

  /**
   The recursion over rejoined strings agrees with walking the segments: it panics exactly when a
   proper prefix holds a leaf, and otherwise says whether the path leads nowhere.
   */
  lemma {:induction false} CheckWalks(key: string, data: map<string, Json>)
    ensures CheckUnchanged(key, data).None? <==> Blocked(Split(key, '.'), Object(data))
    ensures CheckUnchanged(key, data).Some? ==>
              CheckUnchanged(key, data).value == ValueAt(Split(key, '.'), Object(data)).None?
    decreases |key|
  {
    var path := Split(key, '.');
    if |path| > 1 {
      BlockedStep(path, Object(data));
      if path[0] in data && data[path[0]].Object? {
        ShorterPath(key);
        SplitJoin(path[1..], '.');
        CheckWalks(Join(path[1..], '.'), data[path[0]].fields);
      }
    }
  }

  // ---- Preconditions on an edit ----------------------------------------------------------------

  /** PreconditionSpecField. */
  const RESTRICTED: map<string, seq<string>> := map[
    "Cluster" := ["metadata", "spec.cloud", "spec.api", "spec.masterInternalIp", "spec.masterDiskID",
                  "spec.networking.dnsDomain"],
    "NodeGroup" := ["metadata", "template.spec.externalIPType"],
    "Credential" := ["metadata"]]

  datatype Verdict = Accepted | Rejected | Panicked

  /** The verdict of the first precondition that does not hold. */
  function Judge(fields: seq<string>, patch: map<string, Json>): Verdict {
    if fields == [] then Accepted
    else
      match CheckUnchanged(fields[0], patch)
      case None => Panicked
      case Some(false) => Rejected
      case Some(true) => Judge(fields[1..], patch)
  }

  /** CheckConditionalPrecondition over GetConditionalPreconditionFunc(kind). */
  method CheckEdit(restricted: map<string, seq<string>>, kind: string, patch: map<string, Json>)
    returns (verdict: Verdict)
    ensures verdict == Judge(if kind in restricted then restricted[kind] else [], patch)
  {
    var preconditions: seq<string> := [];
    if kind in restricted {
      var fields := restricted[kind];
      for i := 0 to |fields|
        invariant preconditions == fields[..i]
      {
        preconditions := preconditions + [fields[i]];
      }
      assert preconditions == fields;
    }
    for i := 0 to |preconditions|
      invariant Judge(preconditions[i..], patch) == Judge(preconditions, patch)
    {
      assert preconditions[i..][1..] == preconditions[i + 1..];
      match CheckUnchanged(preconditions[i], patch) {
        case None => return Panicked;
        case Some(holds) =>
          if !holds {
            return Rejected;
          }
      }
    }
    verdict := Accepted;
  }

  ghost predicate Touches(patch: map<string, Json>, field: string) {
    ValueAt(Split(field, '.'), Object(patch)).Some?
  }

  ghost predicate TouchesAny(patch: map<string, Json>, fields: seq<string>) {
    exists f :: f in fields && Touches(patch, f)
  }

  ghost predicate Blocks(patch: map<string, Json>, field: string) {
    Blocked(Split(field, '.'), Object(patch))
  }

  /** Field `i` is blocked and no earlier field is touched. */
  ghost predicate PanicsAt(fields: seq<string>, patch: map<string, Json>, i: nat)
    requires i < |fields|
  {
    Blocks(patch, fields[i]) && forall j :: 0 <= j < i ==> !Touches(patch, fields[j])
  }

  /** Field `i` is touched and no earlier field is blocked. */
  ghost predicate RejectsAt(fields: seq<string>, patch: map<string, Json>, i: nat)
    requires i < |fields|
  {
    Touches(patch, fields[i]) && forall j :: 0 <= j < i ==> !Blocks(patch, fields[j])
  }

  /**
   For every table of restricted fields: an edit is rejected exactly when a touched field comes before any
   blocked one, panics exactly when a blocked field comes before any touched one, and is accepted
   otherwise. So when no field is blocked, it is rejected exactly when it touches one of them.
   */
  lemma {:induction false} EditVerdict(fields: seq<string>, patch: map<string, Json>)
    ensures (forall f :: f in fields ==> !Blocks(patch, f)) ==>
              Judge(fields, patch) == if TouchesAny(patch, fields) then Rejected else Accepted
    ensures Judge(fields, patch) == Panicked <==> exists i :: 0 <= i < |fields| && PanicsAt(fields, patch, i)
    ensures Judge(fields, patch) == Rejected <==> exists i :: 0 <= i < |fields| && RejectsAt(fields, patch, i)
    ensures Judge(fields, patch) == Accepted <==> forall f :: f in fields ==> !Blocks(patch, f) && !Touches(patch, f)
  {
    if fields != [] {
      var first, rest := fields[0], fields[1..];
      EditVerdict(rest, patch);
      CheckWalks(first, patch);
      assert forall f :: f in fields <==> f == first || f in rest;
      assert TouchesAny(patch, fields) <==> Touches(patch, first) || TouchesAny(patch, rest);
      BlockedNotTouched(patch, first);
      PanicStep(fields, patch);
      RejectStep(fields, patch);
    }
  }

  /** A blocked path leads nowhere. */
  lemma BlockedNotTouched(patch: map<string, Json>, field: string)
    ensures !(Blocks(patch, field) && Touches(patch, field))
  {
    BlockedLeadsNowhere(Split(field, '.'), Object(patch));
  }

  lemma {:induction false} BlockedLeadsNowhere(path: seq<string>, j: Json)
    ensures Blocked(path, j) ==> ValueAt(path, j).None?
  {
    if |path| > 1 {
      if j.Object? {
        BlockedStep(path, j);
        if path[0] in j.fields {
          BlockedLeadsNowhere(path[1..], j.fields[path[0]]);
        }
      }
    }
  }

  lemma PanicStep(fields: seq<string>, patch: map<string, Json>)
    requires fields != []
    ensures (exists i :: 0 <= i < |fields| && PanicsAt(fields, patch, i)) <==>
            || Blocks(patch, fields[0])
            || (!Touches(patch, fields[0]) && exists i :: 0 <= i < |fields[1..]| && PanicsAt(fields[1..], patch, i))
  {
    var rest := fields[1..];
    forall i | 0 < i < |fields|
      ensures PanicsAt(fields, patch, i) <==> !Touches(patch, fields[0]) && PanicsAt(rest, patch, i - 1)
    {
      assert forall j :: 0 <= j < i - 1 ==> rest[j] == fields[j + 1];
      assert forall j :: 0 < j < i ==> fields[j] == rest[j - 1];
    }
    if Blocks(patch, fields[0]) {
      assert PanicsAt(fields, patch, 0);
    } else if i :| 0 <= i < |rest| && PanicsAt(rest, patch, i) {
      assert !Touches(patch, fields[0]) ==> PanicsAt(fields, patch, i + 1);
    }
  }

  lemma RejectStep(fields: seq<string>, patch: map<string, Json>)
    requires fields != []
    ensures (exists i :: 0 <= i < |fields| && RejectsAt(fields, patch, i)) <==>
            || Touches(patch, fields[0])
            || (!Blocks(patch, fields[0]) && exists i :: 0 <= i < |fields[1..]| && RejectsAt(fields[1..], patch, i))
  {
    var rest := fields[1..];
    forall i | 0 < i < |fields|
      ensures RejectsAt(fields, patch, i) <==> !Blocks(patch, fields[0]) && RejectsAt(rest, patch, i - 1)
    {
      assert forall j :: 0 <= j < i - 1 ==> rest[j] == fields[j + 1];
      assert forall j :: 0 < j < i ==> fields[j] == rest[j - 1];
    }
    if Touches(patch, fields[0]) {
      assert RejectsAt(fields, patch, 0);
    } else if i :| 0 <= i < |rest| && RejectsAt(rest, patch, i) {
      assert !Blocks(patch, fields[0]) ==> RejectsAt(fields, patch, i + 1);
    }
  }

  // ---- Edits of a cluster ----------------------------------------------------------------------

  lemma {:induction false} CheckOne(a: string, data: map<string, Json>)
    requires '.' !in a
    ensures CheckUnchanged(a, data) == Some(a !in data)
  {
    SplitWhole(a, '.');
  }

  /** A path of several segments: the first one, then the rest. */
  lemma {:induction false} CheckFirst(a: string, rest: string, data: map<string, Json>)
    requires '.' !in a
    ensures CheckUnchanged(a + "." + rest, data) ==
            if a !in data then Some(true)
            else if data[a].Leaf? then None
            else CheckUnchanged(rest, data[a].fields)
  {
    SplitAfter(a, rest, '.');
    assert a + "." + rest == a + ['.'] + rest;
    var keys := Split(a + "." + rest, '.');
    assert keys[1..] == Split(rest, '.');
    JoinSplit(rest, '.');
  }

  lemma {:induction false} CheckInSpec(leaf: string, patch: map<string, Json>)
    requires '.' !in leaf
    ensures CheckUnchanged("spec" + "." + leaf, patch) ==
            if "spec" !in patch then Some(true)
            else if patch["spec"].Leaf? then None
            else Some(leaf !in patch["spec"].fields)
  {
    hide CheckUnchanged;
    CheckFirst("spec", leaf, patch);
    if "spec" in patch && patch["spec"].Object? {
      CheckOne(leaf, patch["spec"].fields);
    }
  }

  lemma {:induction false} CheckDnsDomain(patch: map<string, Json>)
    ensures CheckUnchanged("spec" + "." + ("networking" + "." + "dnsDomain"), patch) ==
            if "spec" !in patch then Some(true)
            else if patch["spec"].Leaf? then None
            else if "networking" !in patch["spec"].fields then Some(true)
            else if patch["spec"].fields["networking"].Leaf? then None
            else Some("dnsDomain" !in patch["spec"].fields["networking"].fields)
  {
    hide CheckUnchanged;
    CheckFirst("spec", "networking" + "." + "dnsDomain", patch);
    if "spec" in patch && patch["spec"].Object? {
      CheckFirst("networking", "dnsDomain", patch["spec"].fields);
      if "networking" in patch["spec"].fields && patch["spec"].fields["networking"].Object? {
        CheckOne("dnsDomain", patch["spec"].fields["networking"].fields);
      }
    }
  }

  lemma ClusterFields()
    ensures RESTRICTED["Cluster"] ==
            ["metadata", "spec" + "." + "cloud", "spec" + "." + "api", "spec" + "." + "masterInternalIp",
             "spec" + "." + "masterDiskID", "spec" + "." + ("networking" + "." + "dnsDomain")]
  {
    ShortFields();
    MasterFields();
    DnsField();
  }

  lemma ShortFields()
    ensures "spec.cloud" == "spec" + "." + "cloud" && "spec.api" == "spec" + "." + "api"
  {
  }

  lemma MasterFields()
    ensures "spec.masterInternalIp" == "spec" + "." + "masterInternalIp"
    ensures "spec.masterDiskID" == "spec" + "." + "masterDiskID"
  {
  }

  lemma DnsField()
    ensures "spec.networking.dnsDomain" == "spec" + "." + ("networking" + "." + "dnsDomain")
  {
    assert "networking.dnsDomain" == "networking" + "." + "dnsDomain";
  }

  lemma {:induction false} JudgeFirst(field: string, rest: seq<string>, patch: map<string, Json>)
    ensures Judge([field] + rest, patch) ==
            match CheckUnchanged(field, patch)
            case None => Panicked
            case Some(holds) => if holds then Judge(rest, patch) else Rejected
  {
    assert ([field] + rest)[1..] == rest;
  }

  predicate InSpec(patch: map<string, Json>, leaf: string) {
    "spec" in patch && patch["spec"].Object? && leaf in patch["spec"].fields
  }

  /** The verdict on every patch of a cluster. */
  lemma {:induction false} ClusterVerdict(patch: map<string, Json>)
    ensures Judge(RESTRICTED["Cluster"], patch) ==
            if "metadata" in patch then Rejected
            else if "spec" in patch && patch["spec"].Leaf? then Panicked
            else if InSpec(patch, "cloud") || InSpec(patch, "api") || InSpec(patch, "masterInternalIp")
                    || InSpec(patch, "masterDiskID") then Rejected
            else if !InSpec(patch, "networking") then Accepted
            else if patch["spec"].fields["networking"].Leaf? then Panicked
            else if "dnsDomain" in patch["spec"].fields["networking"].fields then Rejected
            else Accepted
  {
    hide CheckUnchanged, Judge;
    ClusterFields();
    var cloud, api := "spec" + "." + "cloud", "spec" + "." + "api";
    var ip, disk := "spec" + "." + "masterInternalIp", "spec" + "." + "masterDiskID";
    var dns := "spec" + "." + ("networking" + "." + "dnsDomain");
    CheckOne("metadata", patch);
    CheckInSpec("cloud", patch);
    CheckInSpec("api", patch);
    CheckInSpec("masterInternalIp", patch);
    CheckInSpec("masterDiskID", patch);
    CheckDnsDomain(patch);
    JudgeNothing(patch);
    JudgeFirst(dns, [], patch);
    JudgeFirst(disk, [dns], patch);
    JudgeFirst(ip, [disk, dns], patch);
    JudgeFirst(api, [ip, disk, dns], patch);
    JudgeFirst(cloud, [api, ip, disk, dns], patch);
    JudgeFirst("metadata", [cloud, api, ip, disk, dns], patch);
    assert [dns] + [] == [dns] && [disk] + [dns] == [disk, dns] && [ip] + [disk, dns] == [ip, disk, dns];
    assert [api] + [ip, disk, dns] == [api, ip, disk, dns];
    assert [cloud] + [api, ip, disk, dns] == [cloud, api, ip, disk, dns];
    assert ["metadata"] + [cloud, api, ip, disk, dns] == RESTRICTED["Cluster"];
  }

  lemma JudgeNothing(patch: map<string, Json>)
    ensures Judge([], patch) == Accepted
  {
  }

  // ---- Edits of one stored cluster into another ------------------------------------------------

  /**
   The merge patch that turns one object into another; objects are compared field by field, and a field
   that is gone is set to null.
   */
  function Diff(o: map<string, Json>, m: map<string, Json>): map<string, Json>
    decreases Object(o), 1
  {
    map k | k in o.Keys + m.Keys && DiffAt(o, m, k).Some? :: DiffAt(o, m, k).value
  }

  function DiffAt(o: map<string, Json>, m: map<string, Json>, k: string): Option<Json>
    requires k in o.Keys + m.Keys
    decreases Object(o), 0
  {
    if k !in m then Some(Leaf("null"))
    else if k !in o then Some(m[k])
    else if o[k].Object? && m[k].Object? then
      var patch := Diff(o[k].fields, m[k].fields);
      if patch == map[] then None else Some(Object(patch))
    else if o[k] == m[k] then None
    else Some(m[k])
  }

  /** The patch has the fields that differ, and is empty for equal objects only. */
  lemma {:induction false} DiffDiffers(o: map<string, Json>, m: map<string, Json>)
    ensures forall k :: k in Diff(o, m) <==> (k in o) != (k in m) || (k in o && k in m && o[k] != m[k])
    ensures Diff(o, m) == map[] <==> o == m
    decreases Object(o)
  {
    forall k | k in o && k in m
      ensures DiffAt(o, m, k).Some? <==> o[k] != m[k]
    {
      if o[k].Object? && m[k].Object? {
        DiffDiffers(o[k].fields, m[k].fields);
      }
    }
    var patch := Diff(o, m);
    assert forall k :: k in patch <==> k in o.Keys + m.Keys && DiffAt(o, m, k).Some?;
    if o != m {
      var k :| k in o.Keys + m.Keys && ((k in o) != (k in m) || o[k] != m[k]);
      assert k in patch;
    }
  }

  /** A cluster as it is stored: a spec has three fields and no others. */
  datatype Cluster = Cluster(kind: string, apiVersion: string, metadata: map<string, Json>,
                             clusterApi: map<string, Json>, config: map<string, Json>, auditSink: bool,
                             status: map<string, Json>)

  /** A text or truth value that is left out when it is empty or false. */
  function Optional(name: string, text: string, present: bool): map<string, Json> {
    if present then map[name := Leaf(text)] else map[]
  }

  function EncodeSpec(c: Cluster): map<string, Json> {
    map["clusterApi" := Object(c.clusterApi), "config" := Object(c.config)]
    + Optional("auditSink", "true", c.auditSink)
  }

  function Encode(c: Cluster): map<string, Json> {
    map["metadata" := Object(c.metadata), "spec" := Object(EncodeSpec(c)), "status" := Object(c.status)]
    + Optional("kind", c.kind, c.kind != "") + Optional("apiVersion", c.apiVersion, c.apiVersion != "")
  }

  /** A patch of a cluster whose spec, if there, is an object without a restricted field. */
  predicate BetweenClusters(patch: map<string, Json>) {
    && ("spec" in patch ==> patch["spec"].Object?)
    && !InSpec(patch, "cloud") && !InSpec(patch, "api") && !InSpec(patch, "masterInternalIp")
    && !InSpec(patch, "masterDiskID") && !InSpec(patch, "networking")
  }

  lemma EncodedFields(c: Cluster)
    ensures var e := Encode(c);
            && "metadata" in e && e["metadata"] == Object(c.metadata)
            && "spec" in e && e["spec"] == Object(EncodeSpec(c))
            && "status" in e && e["status"] == Object(c.status)
            && ("kind" in e <==> c.kind != "") && ("kind" in e ==> e["kind"] == Leaf(c.kind))
            && ("apiVersion" in e <==> c.apiVersion != "")
            && ("apiVersion" in e ==> e["apiVersion"] == Leaf(c.apiVersion))
  {
    hide EncodeSpec;
  }

  lemma EncodedSpec(c: Cluster)
    ensures var e := EncodeSpec(c);
            && "clusterApi" in e && e["clusterApi"] == Object(c.clusterApi)
            && "config" in e && e["config"] == Object(c.config)
            && ("auditSink" in e <==> c.auditSink) && ("auditSink" in e ==> e["auditSink"] == Leaf("true"))
            && "cloud" !in e && "api" !in e && "masterInternalIp" !in e && "masterDiskID" !in e && "networking" !in e
  {
  }

  /** Two specs with the same encoding are the same. */
  lemma SameSpecs(o: Cluster, m: Cluster)
    ensures EncodeSpec(o) == EncodeSpec(m) <==>
            o.clusterApi == m.clusterApi && o.config == m.config && o.auditSink == m.auditSink
  {
    EncodedSpec(o);
    EncodedSpec(m);
  }

  /** Inside a field that is an object on both sides, the patch is the patch of those objects. */
  lemma DiffInside(o: map<string, Json>, m: map<string, Json>, k: string)
    requires k in o && k in m && o[k].Object? && m[k].Object? && k in Diff(o, m)
    ensures Diff(o, m)[k] == Object(Diff(o[k].fields, m[k].fields))
  {
  }

  /** Every patch between two clusters is of that kind, and has the fields in which they differ. */
  lemma {:induction false} DiffOfClusters(o: Cluster, m: Cluster)
    ensures var patch := Diff(Encode(o), Encode(m));
            && BetweenClusters(patch)
            && ("metadata" in patch <==> o.metadata != m.metadata)
            && ("status" in patch <==> o.status != m.status)
            && ("kind" in patch <==> o.kind != m.kind)
            && ("apiVersion" in patch <==> o.apiVersion != m.apiVersion)
            && ("spec" in patch <==>
                o.clusterApi != m.clusterApi || o.config != m.config || o.auditSink != m.auditSink)
  {
    hide Diff, Encode, EncodeSpec;
    EncodedFields(o);
    EncodedFields(m);
    EncodedSpec(o);
    EncodedSpec(m);
    SameSpecs(o, m);
    DiffDiffers(Encode(o), Encode(m));
    DiffDiffers(EncodeSpec(o), EncodeSpec(m));
    if "spec" in Diff(Encode(o), Encode(m)) {
      DiffInside(Encode(o), Encode(m), "spec");
    }
  }

  /** The preconditions that every kind of object has on its patch (GetPreconditionFunc). */
  predicate Fixed(patch: map<string, Json>) {
    && "apiVersion" !in patch && "kind" !in patch
    && !("metadata" in patch && patch["metadata"].Object? && "name" in patch["metadata"].fields)
    && !("metadata" in patch && patch["metadata"].Object? && "namespace" in patch["metadata"].fields)
    && "status" !in patch
  }

  /** UpdateCluster, for clusters that do not print the same. */
  function UpdateCluster(o: Cluster, m: Cluster): Verdict {
    var patch := Diff(Encode(o), Encode(m));
    if !Fixed(patch) then Rejected else Judge(RESTRICTED["Cluster"], patch)
  }

  /** No edit of a cluster panics, and of its restricted fields only metadata is protected. */
  lemma {:induction false} OnlyMetadataProtected(o: Cluster, m: Cluster)
    ensures Judge(RESTRICTED["Cluster"], Diff(Encode(o), Encode(m))) ==
            if o.metadata != m.metadata then Rejected else Accepted
  {
    hide Judge, Diff, Encode;
    DiffOfClusters(o, m);
    ClusterVerdict(Diff(Encode(o), Encode(m)));
  }

  /** An edit goes through exactly when nothing but the spec changes, however the spec does. */
  lemma {:induction false} EditAccepted(o: Cluster, m: Cluster)
    ensures UpdateCluster(o, m) != Panicked
    ensures UpdateCluster(o, m) == Accepted <==>
            m == o.(clusterApi := m.clusterApi, config := m.config, auditSink := m.auditSink)
  {
    hide Judge, Diff, Encode;
    DiffOfClusters(o, m);
    OnlyMetadataProtected(o, m);
  }
}
