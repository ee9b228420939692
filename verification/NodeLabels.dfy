/** Printing node labels for the kubelet's command line (apis/v1alpha1/node_labels.go). */
module NodeLabels {
  import opened Strings

  type Labels = map<string, string>

  const CHECKSUM: string := "meta.appscode.com/checksum"

  /** strings.Contains. */
  predicate Contains(s: string, sub: string) {
    sub <= s || (s != "" && Contains(s[1..], sub))
  }

  predicate Wanted(k: string, appscodeKeysOnly: bool, skipChecksum: bool) {
    !((appscodeKeysOnly && !Contains(k, ".appscode.com/")) || (k == CHECKSUM && skipChecksum))
  }

  function WantedKeys(keys: seq<string>, appscodeKeysOnly: bool, skipChecksum: bool): (r: seq<string>)
    ensures forall k :: k in r <==> k in keys && Wanted(k, appscodeKeysOnly, skipChecksum)
    ensures StrictlyAscending(keys) ==> StrictlyAscending(r)
  {
    if keys == [] then []
    else
      var last := |keys| - 1;
      var r := WantedKeys(keys[..last], appscodeKeysOnly, skipChecksum);
      assert forall i :: 0 <= i < |r| ==> r[i] in r;
      if Wanted(keys[last], appscodeKeysOnly, skipChecksum) then r + [keys[last]] else r
  }

  function Items(n: Labels, keys: seq<string>): (items: seq<string>)
    requires forall k :: k in keys ==> k in n
    ensures |items| == |keys|
  {
    if keys == [] then [] else Items(n, keys[..|keys| - 1]) + [keys[|keys| - 1] + "=" + n[keys[|keys| - 1]]]
  }

  /** The wanted labels in key order, joined by commas. */
  ghost function Text(n: Labels, appscodeKeysOnly: bool, skipChecksum: bool): string {
    Join(Items(n, WantedKeys(Ascending(n.Keys), appscodeKeysOnly, skipChecksum)), ',')
  }

  lemma {:induction false} JoinOneMore(items: seq<string>, item: string)
    ensures Join(items + [item], ',') == if items == [] then item else Join(items, ',') + "," + item
  {
    if |items| > 1 {
      assert (items + [item])[1..] == items[1..] + [item];
      JoinOneMore(items[1..], item);
    } else if |items| == 1 {
      assert (items + [item])[1..] == [item];
    }
  }

  lemma NoKeysYet(n: Labels, appscodeKeysOnly: bool, skipChecksum: bool)
    ensures WantedKeys([], appscodeKeysOnly, skipChecksum) == [] && Join(Items(n, []), ',') == ""
  {
  }

  /** One more key: skipped, or printed after a comma unless it is the first. */
  lemma OneMoreKey(n: Labels, keys: seq<string>, j: nat, appscodeKeysOnly: bool, skipChecksum: bool)
    requires j < |keys| && forall k :: k in keys ==> k in n
    ensures var before := WantedKeys(keys[..j], appscodeKeysOnly, skipChecksum);
            var after := WantedKeys(keys[..j + 1], appscodeKeysOnly, skipChecksum);
            && (forall k :: k in before || k in after ==> k in n)
            && if !Wanted(keys[j], appscodeKeysOnly, skipChecksum) then after == before
               else
                 && |after| == |before| + 1
                 && Join(Items(n, after), ',') ==
                    (if before == [] then "" else Join(Items(n, before), ',') + ",") + keys[j] + "=" + n[keys[j]]
  {
    hide Wanted, Join, StrictlyAscending;
    assert keys[..j + 1][..j] == keys[..j];
    var before := WantedKeys(keys[..j], appscodeKeysOnly, skipChecksum);
    var k := keys[j];
    assert forall x :: x in keys[..j] ==> x in keys;
    if Wanted(k, appscodeKeysOnly, skipChecksum) {
      ItemsOneMore(n, before, k);
    }
  }

  lemma ItemsOneMore(n: Labels, keys: seq<string>, k: string)
    requires k in n && forall x :: x in keys ==> x in n
    ensures Join(Items(n, keys + [k]), ',') ==
            (if keys == [] then "" else Join(Items(n, keys), ',') + ",") + k + "=" + n[k]
  {
    assert (keys + [k])[..|keys|] == keys;
    var item := k + "=" + n[k];
    assert Items(n, keys + [k]) == Items(n, keys) + [item];
    JoinOneMore(Items(n, keys), item);
    assert Join(Items(n, keys), ',') + "," + item == Join(Items(n, keys), ',') + "," + k + "=" + n[k];
    assert "" + k + "=" + n[k] == item;
  }

  /** values: the keys leave the map in any order. */
  method Values(n: Labels, appscodeKeysOnly: bool, skipChecksum: bool) returns (buf: string)
    ensures buf == Text(n, appscodeKeysOnly, skipChecksum)
  {
    var keys := CollectKeys(n);
    SortedKeys(keys);
    keys := Sort(keys);
    AscendingUnique(keys, Ascending(n.Keys));
    hide WantedKeys, Items, Join, Contains, StrictlyAscending;
    NoKeysYet(n, appscodeKeysOnly, skipChecksum);
    assert keys[..0] == [];
    buf := "";
    var i := 0;
    for j := 0 to |keys|
      invariant i == |WantedKeys(keys[..j], appscodeKeysOnly, skipChecksum)|
      invariant forall k :: k in keys ==> k in n
      invariant buf == Join(Items(n, WantedKeys(keys[..j], appscodeKeysOnly, skipChecksum)), ',')
    {
      var k := keys[j];
      OneMoreKey(n, keys, j, appscodeKeysOnly, skipChecksum);
      if (appscodeKeysOnly && !Contains(k, ".appscode.com/")) || (k == CHECKSUM && skipChecksum) {
        continue;
      }
      if i > 0 {
        buf := buf + ",";
      }
      buf := buf + k;
      buf := buf + "=";
      buf := buf + n[k];
      i := i + 1;
    }
    assert keys[..|keys|] == keys;
  }

  method CollectKeys(n: Labels) returns (keys: seq<string>)
    ensures forall k :: k in keys <==> k in n
    ensures forall i, j :: 0 <= i < j < |keys| ==> keys[i] != keys[j]
  {
    keys := [];
    var todo := n.Keys;
    while todo != {}
      invariant forall k :: k in n.Keys <==> k in keys || k in todo
      invariant forall k :: k in keys ==> k !in todo
      invariant forall i, j :: 0 <= i < j < |keys| ==> keys[i] != keys[j]
      decreases todo
    {
      var k :| k in todo;
      keys, todo := keys + [k], todo - {k};
    }
  }

  // ---- Filtering -------------------------------------------------------------------------------

  function Restrict(n: Labels, appscodeKeysOnly: bool, skipChecksum: bool): Labels {
    map k | k in n && Wanted(k, appscodeKeysOnly, skipChecksum) :: n[k]
  }

  lemma {:induction false} ItemsAgree(n: Labels, m: Labels, keys: seq<string>)
    requires forall k :: k in keys ==> k in n && k in m && n[k] == m[k]
    ensures Items(n, keys) == Items(m, keys)
  {
    if keys != [] {
      assert keys[|keys| - 1] in keys;
      ItemsAgree(n, m, keys[..|keys| - 1]);
    }
  }

  /** Filtering while printing gives the text of the filtered map. */
  lemma FilterThenPrint(n: Labels, appscodeKeysOnly: bool, skipChecksum: bool)
    ensures Text(n, appscodeKeysOnly, skipChecksum) == Text(Restrict(n, appscodeKeysOnly, skipChecksum), false, false)
  {
    hide Wanted;
    var m := Restrict(n, appscodeKeysOnly, skipChecksum);
    var some := WantedKeys(Ascending(n.Keys), appscodeKeysOnly, skipChecksum);
    var all := WantedKeys(Ascending(m.Keys), false, false);
    AllWanted(Ascending(m.Keys));
    AscendingUnique(some, all);
    ItemsAgree(n, m, some);
  }

  lemma AllWanted(keys: seq<string>)
    ensures forall k :: k in keys ==> Wanted(k, false, false)
  {
  }

  // ---- Reading back ----------------------------------------------------------------------------

  /** Everything before and after the first '='; without one, all key and no value. */
  function Cut(item: string): (string, string) {
    if item == "" then ("", "")
    else if item[0] == '=' then ("", item[1..])
    else var (k, v) := Cut(item[1..]); ([item[0]] + k, v)
  }

  function ParseItems(items: seq<string>): Labels {
    if items == [] then map[]
    else
      var (k, v) := Cut(items[|items| - 1]);
      ParseItems(items[..|items| - 1])[k := v]
  }

  /** Split on ',' and on the first '='. */
  function Parse(text: string): Labels {
    if text == "" then map[] else ParseItems(Split(text, ','))
  }

  lemma {:induction false} CutItem(k: string, v: string)
    requires '=' !in k
    ensures Cut(k + "=" + v) == (k, v)
  {
    if k == "" {
      assert k + "=" + v == "=" + v;
    } else {
      assert (k + "=" + v)[1..] == k[1..] + "=" + v;
      CutItem(k[1..], v);
      assert [k[0]] + k[1..] == k;
    }
  }

  predicate Printable(n: Labels) {
    forall k | k in n :: ',' !in k && '=' !in k && ',' !in n[k]
  }

  lemma {:induction false} ItemsReadBack(n: Labels, keys: seq<string>)
    requires Printable(n) && forall k :: k in keys ==> k in n
    ensures ParseItems(Items(n, keys)) == map k | k in keys :: n[k]
    ensures forall i :: 0 <= i < |keys| ==> ',' !in Items(n, keys)[i] && Items(n, keys)[i] != ""
  {
    if keys != [] {
      var last := |keys| - 1;
      var k := keys[last];
      assert k in keys && keys == keys[..last] + [k];
      ItemsReadBack(n, keys[..last]);
      CutItem(k, n[k]);
      var items := Items(n, keys);
      assert items[..last] == Items(n, keys[..last]);
      assert items[last] == k + "=" + n[k];
    }
  }

  /** Printing is invertible, for every map whose keys and values avoid the separators. */
  lemma PrintIsInvertible(n: Labels)
    requires Printable(n)
    ensures Parse(Text(n, false, false)) == n
  {
    var keys := Ascending(n.Keys);
    var all := WantedKeys(keys, false, false);
    AllWanted(keys);
    ItemsReadBack(n, all);
    var items := Items(n, all);
    if items == [] {
      assert n.Keys == {} by {
        assert forall k :: k in n ==> k in all;
      }
    } else {
      SplitJoin(items, ',');
      assert |Join(items, ',')| >= |items[0]|;
    }
  }
}
