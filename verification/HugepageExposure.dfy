/**
 What the Downward API volume exposes: exactly the non-zero hugepage entries, each under its
 own file name.
 */
module HugepageExposure {
  import opened Text
  import opened Orders
  import opened PodView
  import opened Hugepages

  /** An entry: container index, requests or limits, resource name. */
  type EntryKey = (int, Kind, string)

  ghost predicate IsExposed(containers: seq<Container>, k: EntryKey) {
    0 <= k.0 < |containers| && Exposed(containers[k.0], k.1, k.2)
  }

  function ResourceAt(containers: seq<Container>, k: EntryKey): HugepageResource
    requires 0 <= k.0 < |containers| && Exposed(containers[k.0], k.1, k.2)
  {
    ResourceOf(containers[k.0], k.1, k.2)
  }

  // ---------- the list is a listing of the exposed entries ----------

  /** The entries behind ListOf, in the same order. */
  function KeysOf(i: int, c: Container, kind: Kind, order: seq<string>): seq<EntryKey>
    decreases |order|
  {
    if order == [] then []
    else
      var n := |order| - 1;
      KeysOf(i, c, kind, order[..n]) + if Exposed(c, kind, order[n]) then [(i, kind, order[n])] else []
  }

  /** The entries behind ListAll. */
  function KeysAll(containers: seq<Container>, orders: seq<KindOrders>): seq<EntryKey>
    requires |orders| == |containers|
    decreases |containers|
  {
    if containers == [] then []
    else
      var n := |containers| - 1;
      KeysAll(containers[..n], orders[..n])
      + (KeysOf(n, containers[n], Requests, orders[n].requests) + KeysOf(n, containers[n], Limits, orders[n].limits))
  }

  predicate ListsEntries(containers: seq<Container>, list: seq<HugepageResource>, keys: seq<EntryKey>) {
    |list| == |keys| && forall j :: 0 <= j < |keys| ==>
      0 <= keys[j].0 < |containers| && Exposed(containers[keys[j].0], keys[j].1, keys[j].2) && list[j] == ResourceAt(containers, keys[j])
  }

  lemma {:induction false} KeysOfExact(containers: seq<Container>, i: int, kind: Kind, order: seq<string>)
    requires 0 <= i < |containers| && NoDuplicates(order)
    ensures NoDuplicates(KeysOf(i, containers[i], kind, order))
    ensures ListsEntries(containers, ListOf(containers[i], kind, order), KeysOf(i, containers[i], kind, order))
    ensures forall k :: k in KeysOf(i, containers[i], kind, order) <==>
              k.0 == i && k.1 == kind && k.2 in order && Exposed(containers[i], kind, k.2)
    decreases |order|
  {
    if order != [] {
      var n := |order| - 1;
      KeysOfExact(containers, i, kind, order[..n]);
      assert order == order[..n] + [order[n]];
    }
  }

  lemma ListsConcat(containers: seq<Container>, l1: seq<HugepageResource>, k1: seq<EntryKey>, l2: seq<HugepageResource>, k2: seq<EntryKey>)
    requires ListsEntries(containers, l1, k1) && ListsEntries(containers, l2, k2)
    ensures ListsEntries(containers, l1 + l2, k1 + k2)
  {
  }

  lemma LastContainerKeys(containers: seq<Container>, orders: seq<KindOrders>)
    requires containers != [] && ValidHugepageOrders(containers, orders)
    ensures var n := |containers| - 1;
            var requested := KeysOf(n, containers[n], Requests, orders[n].requests);
            var limited := KeysOf(n, containers[n], Limits, orders[n].limits);
            && NoDuplicates(requested + limited)
            && ListsEntries(containers, ListOf(containers[n], Requests, orders[n].requests) + ListOf(containers[n], Limits, orders[n].limits),
                            requested + limited)
            && forall k :: k in requested + limited <==> k.0 == n && IsExposed(containers, k)
  {
    var n := |containers| - 1;
    assert ValidKindOrders(containers[n], orders[n]);
    KeysOfExact(containers, n, Requests, orders[n].requests);
    KeysOfExact(containers, n, Limits, orders[n].limits);
    var requested := KeysOf(n, containers[n], Requests, orders[n].requests);
    var limited := KeysOf(n, containers[n], Limits, orders[n].limits);
    DisjointConcat(requested, limited);
    ListsConcat(containers, ListOf(containers[n], Requests, orders[n].requests), requested,
                ListOf(containers[n], Limits, orders[n].limits), limited);
  }

  lemma {:induction false} KeysAllExact(containers: seq<Container>, orders: seq<KindOrders>)
    requires ValidHugepageOrders(containers, orders)
    ensures NoDuplicates(KeysAll(containers, orders))
    ensures ListsEntries(containers, ListAll(containers, orders), KeysAll(containers, orders))
    ensures forall k :: k in KeysAll(containers, orders) <==> IsExposed(containers, k)
    decreases |containers|
  {
    if containers != [] {
      var n := |containers| - 1;
      var front, frontList := KeysAll(containers[..n], orders[..n]), ListAll(containers[..n], orders[..n]);
      KeysAllExact(containers[..n], orders[..n]);
      LastContainerKeys(containers, orders);
      var back := KeysOf(n, containers[n], Requests, orders[n].requests) + KeysOf(n, containers[n], Limits, orders[n].limits);
      assert forall k :: k in front <==> k.0 < n && IsExposed(containers, k);
      DisjointConcat(front, back);
      ListsConcat(containers, frontList, front,
                  ListOf(containers[n], Requests, orders[n].requests) + ListOf(containers[n], Limits, orders[n].limits), back);
    } else {
      assert forall k: EntryKey :: !IsExposed(containers, k);
    }
  }

  lemma DisjointConcat<T>(a: seq<T>, b: seq<T>)
    requires NoDuplicates(a) && NoDuplicates(b)
    requires forall x :: x in a ==> x !in b
    ensures NoDuplicates(a + b)
  {
    forall i, j | 0 <= i < j < |a + b| ensures (a + b)[i] != (a + b)[j] {
      if i < |a| <= j { assert a[i] in a && b[j - |a|] in b; }
    }
  }

  // ---------- visiting orders only permute the list ----------

  function ResourceOrBlank(containers: seq<Container>, k: EntryKey): HugepageResource {
    if 0 <= k.0 < |containers| && Exposed(containers[k.0], k.1, k.2) then ResourceAt(containers, k)
    else HugepageResource("", "", "")
  }

  lemma ListIsMapped(containers: seq<Container>, list: seq<HugepageResource>, keys: seq<EntryKey>)
    requires ListsEntries(containers, list, keys)
    ensures list == Mapped(k => ResourceOrBlank(containers, k), keys)
  {
  }

  /** Whatever orders the maps are visited in, the same items are listed, up to permutation. */
  lemma ListPermuted(containers: seq<Container>, orders1: seq<KindOrders>, orders2: seq<KindOrders>)
    requires ValidHugepageOrders(containers, orders1) && ValidHugepageOrders(containers, orders2)
    ensures multiset(ListAll(containers, orders1)) == multiset(ListAll(containers, orders2))
  {
    var keys1, keys2 := KeysAll(containers, orders1), KeysAll(containers, orders2);
    KeysAllExact(containers, orders1);
    KeysAllExact(containers, orders2);
    SameKeysPermute(containers, ListAll(containers, orders1), keys1, ListAll(containers, orders2), keys2);
  }

  lemma SameKeysPermute(containers: seq<Container>, list1: seq<HugepageResource>, keys1: seq<EntryKey>,
                        list2: seq<HugepageResource>, keys2: seq<EntryKey>)
    requires ListsEntries(containers, list1, keys1) && ListsEntries(containers, list2, keys2)
    requires NoDuplicates(keys1) && NoDuplicates(keys2)
    requires forall k :: k in keys1 <==> k in keys2
    ensures multiset(list1) == multiset(list2)
  {
    ListIsMapped(containers, list1, keys1);
    ListIsMapped(containers, list2, keys2);
    SameMembersPermute(keys1, keys2);
    MappedPermutes(k => ResourceOrBlank(containers, k), keys1, keys2);
  }

  // ---------- file names ----------

  /** A name without '_' is what follows the last '_'. */
  lemma LastCut(a: string, c: string, b: string, d: string)
    requires '_' !in c && '_' !in d && a + "_" + c == b + "_" + d
    ensures a == b && c == d
  {
    var s := a + "_" + c;
    assert s[|a|] == '_' && s[|b|] == '_';
    assert forall i :: |a| < i < |s| ==> s[i] == c[i - |a| - 1];
    assert forall i :: |b| < i < |s| ==> s[i] == d[i - |b| - 1];
    assert |a| == |b|;
    assert a == s[..|a|] && b == s[..|b|] && c == s[|a| + 1..] && d == s[|b| + 1..];
  }

  function Stripped(size: string): string {
    ReplaceAll(size, 'i', "")
  }

  /** Two file names coincide exactly for the same container name, kind and stripped size. */
  lemma PathsCoincide(k1: Kind, s1: string, c1: string, k2: Kind, s2: string, c2: string)
    requires '_' !in c1 && '_' !in c2
    ensures PathOf(k1, s1, c1) == PathOf(k2, s2, c2) <==> k1 == k2 && c1 == c2 && Stripped(s1) == Stripped(s2)
  {
    var p := "hugepages_";
    if PathOf(k1, s1, c1) == PathOf(k2, s2, c2) {
      LastCut(p + Stripped(s1) + "_" + KindWord(k1), c1, p + Stripped(s2) + "_" + KindWord(k2), c2);
      KindWordPlain(k1);
      KindWordPlain(k2);
      LastCut(p + Stripped(s1), KindWord(k1), p + Stripped(s2), KindWord(k2));
      KindWordsDiffer(k1, k2);
      assert (p + Stripped(s1))[|p|..] == Stripped(s1) && (p + Stripped(s2))[|p|..] == Stripped(s2);
    }
  }

  lemma KindWordPlain(k: Kind)
    ensures '_' !in KindWord(k)
  {
  }

  lemma KindWordsDiffer(k1: Kind, k2: Kind)
    requires KindWord(k1) == KindWord(k2)
    ensures k1 == k2
  {
    assert "request"[0] != "limit"[0];
  }

  /** Sizes such as 1Gi: a single 'i', at the end. */
  predicate StandardSize(size: string) {
    size != "" && size[|size| - 1] == 'i' && 'i' !in size[..|size| - 1]
  }

  lemma {:induction false} StrippedPlain(s: string)
    requires 'i' !in s
    ensures Stripped(s) == s && Stripped(s + "i") == s
  {
    if s == "" {
      assert "i"[1..] == "";
    } else {
      assert s[0] in s && 'i' !in s[1..];
      StrippedPlain(s[1..]);
      assert (s + "i")[1..] == s[1..] + "i";
      assert [s[0]] + s[1..] == s;
    }
  }

  /** Stripping loses nothing on sizes of the standard form. */
  lemma StrippedInjective(a: string, b: string)
    requires StandardSize(a) && StandardSize(b) && Stripped(a) == Stripped(b)
    ensures a == b
  {
    StrippedPlain(a[..|a| - 1]);
    StrippedPlain(b[..|b| - 1]);
    assert a == a[..|a| - 1] + "i" && b == b[..|b| - 1] + "i";
  }

  predicate DistinctNames(containers: seq<Container>) {
    forall i, j :: 0 <= i < j < |containers| ==> containers[i].name != containers[j].name
  }

  predicate NamesWithoutUnderscore(containers: seq<Container>) {
    forall i :: 0 <= i < |containers| ==> '_' !in containers[i].name
  }

  predicate DistinctPaths(list: seq<HugepageResource>) {
    forall i, j :: 0 <= i < j < |list| ==> list[i].path != list[j].path
  }

  /** Two entries of one container and kind whose sizes differ only in letters 'i'. */
  ghost predicate SizesClash(containers: seq<Container>, a: EntryKey, b: EntryKey) {
    && IsExposed(containers, a) && IsExposed(containers, b) && a != b && a.0 == b.0 && a.1 == b.1
    && Stripped(HugepageSize(a.2).value) == Stripped(HugepageSize(b.2).value)
  }

  lemma EntryPathsCoincide(containers: seq<Container>, a: EntryKey, b: EntryKey)
    requires DistinctNames(containers) && NamesWithoutUnderscore(containers)
    requires IsExposed(containers, a) && IsExposed(containers, b) && a != b
    ensures ResourceAt(containers, a).path == ResourceAt(containers, b).path <==> SizesClash(containers, a, b)
  {
    PathsCoincide(a.1, HugepageSize(a.2).value, containers[a.0].name, b.1, HugepageSize(b.2).value, containers[b.0].name);
  }

  lemma ClashRepeatsPath(containers: seq<Container>, list: seq<HugepageResource>, keys: seq<EntryKey>, a: EntryKey, b: EntryKey)
    requires DistinctNames(containers) && NamesWithoutUnderscore(containers)
    requires ListsEntries(containers, list, keys) && a in keys && b in keys && SizesClash(containers, a, b)
    ensures !DistinctPaths(list)
  {
    var i :| 0 <= i < |keys| && keys[i] == a;
    var j :| 0 <= j < |keys| && keys[j] == b;
    EntryPathsCoincide(containers, a, b);
    assert list[i].path == list[j].path;
  }

  ghost predicate SomeClash(containers: seq<Container>) {
    exists a, b :: SizesClash(containers, a, b)
  }

  lemma NoClashNoRepeat(containers: seq<Container>, list: seq<HugepageResource>, keys: seq<EntryKey>)
    requires DistinctNames(containers) && NamesWithoutUnderscore(containers)
    requires ListsEntries(containers, list, keys) && NoDuplicates(keys) && !SomeClash(containers)
    ensures DistinctPaths(list)
  {
    forall i, j | 0 <= i < j < |list| ensures list[i].path != list[j].path {
      assert IsExposed(containers, keys[i]) && IsExposed(containers, keys[j]);
      EntryPathsCoincide(containers, keys[i], keys[j]);
    }
  }

  /**
   With unique container names free of '_', all file names are distinct exactly when no two
   exposed sizes of one container and kind clash; standard sizes never do.
   */
  lemma PathsDistinctExactly(containers: seq<Container>, orders: seq<KindOrders>)
    requires DistinctNames(containers) && NamesWithoutUnderscore(containers)
    requires ValidHugepageOrders(containers, orders)
    ensures DistinctPaths(ListAll(containers, orders)) <==> !SomeClash(containers)
  {
    var list, keys := ListAll(containers, orders), KeysAll(containers, orders);
    KeysAllExact(containers, orders);
    if SomeClash(containers) {
      var a, b :| SizesClash(containers, a, b);
      ClashRepeatsPath(containers, list, keys, a, b);
    } else {
      NoClashNoRepeat(containers, list, keys);
    }
  }

  lemma StandardSizesNeverClash(containers: seq<Container>, a: EntryKey, b: EntryKey)
    requires IsExposed(containers, a) && IsExposed(containers, b)
    requires StandardSize(HugepageSize(a.2).value) && StandardSize(HugepageSize(b.2).value)
    ensures !SizesClash(containers, a, b)
  {
    var sa, sb := HugepageSize(a.2).value, HugepageSize(b.2).value;
    assert a.2 == HUGEPAGES_PREFIX + sa && b.2 == HUGEPAGES_PREFIX + sb;
    if Stripped(sa) == Stripped(sb) { StrippedInjective(sa, sb); }
  }

  /** The file names that the repository documents for the two common sizes. */
  lemma StandardPaths(name: string)
    ensures PathOf(Requests, "1Gi", name) == "hugepages_1G_request" + "_" + name
    ensures PathOf(Requests, "2Mi", name) == "hugepages_2M_request" + "_" + name
    ensures PathOf(Limits, "1Gi", name) == "hugepages_1G_limit" + "_" + name
    ensures PathOf(Limits, "2Mi", name) == "hugepages_2M_limit" + "_" + name
  {
    StandardStripped();
    StandardPrefixes();
    SizePath(Requests, "1Gi", "1G", "hugepages_1G_request", name);
    SizePath(Requests, "2Mi", "2M", "hugepages_2M_request", name);
    SizePath(Limits, "1Gi", "1G", "hugepages_1G_limit", name);
    SizePath(Limits, "2Mi", "2M", "hugepages_2M_limit", name);
  }

  function PrefixOf(kind: Kind, stripped: string): string {
    "hugepages_" + stripped + "_" + KindWord(kind)
  }

  lemma StandardPrefixes()
    ensures PrefixOf(Requests, "1G") == "hugepages_1G_request" && PrefixOf(Requests, "2M") == "hugepages_2M_request"
    ensures PrefixOf(Limits, "1G") == "hugepages_1G_limit" && PrefixOf(Limits, "2M") == "hugepages_2M_limit"
  {
  }

  lemma StandardStripped()
    ensures Stripped("1Gi") == "1G" && Stripped("2Mi") == "2M"
  {
    StrippedPlain("1G");
    StrippedPlain("2M");
    assert "1G" + "i" == "1Gi" && "2M" + "i" == "2Mi";
  }

  lemma SizePath(kind: Kind, size: string, stripped: string, prefix: string, name: string)
    requires Stripped(size) == stripped && prefix == PrefixOf(kind, stripped)
    ensures PathOf(kind, size, name) == prefix + "_" + name
  {
  }

  /** No hugepage file is called like the two metadata files. */
  lemma PathsAvoidMetadata(kind: Kind, size: string, name: string)
    ensures PathOf(kind, size, name) != "labels" && PathOf(kind, size, name) != "annotations"
  {
    assert PathOf(kind, size, name)[0] == 'h';
    assert "labels"[0] != 'h' && "annotations"[0] != 'h';
  }
}
