/**
 Counting the resources and collecting the node selector labels of the selected networks.
 */
module Networks {
  import opened Wrappers
  import opened Text

  const NODE_SELECTOR_KEY := "k8s.v1.cni.cncf.io/nodeSelector"

  /** The resources counted and the node labels desired so far. */
  datatype Tally = Tally(counts: map<string, nat>, desired: map<string, string>)

  const NOTHING := Tally(map[], map[])

  datatype Selector = NoSelector | Label(key: string, value: string) | TooManyLabels

  /** The node selector annotation: one `label` or `label=value`. */
  function SelectorOf(annotations: map<string, string>): Selector {
    if NODE_SELECTOR_KEY !in annotations then NoSelector
    else
      var text := annotations[NODE_SELECTOR_KEY];
      var parts := Split(text, '=');
      if |parts| > 2 then TooManyLabels
      else if |parts| == 2 then Label(TrimSpace(parts[0]), TrimSpace(parts[1]))
      else Label(TrimSpace(text), "")
  }

  /** What a selector text says: `label=value`, with white space around either, or a `label` alone. */
  ghost predicate DenotesLabel(text: string, nodeLabel: string, value: string) {
    || ('=' !in text && Padded(text, nodeLabel) && value == "")
    || exists left, right ::
         Padded(left, nodeLabel) && Padded(right, value) && '=' !in left && '=' !in right && text == left + "=" + right
  }

  lemma SelectorExactly(annotations: map<string, string>, nodeLabel: string, value: string)
    ensures SelectorOf(annotations) == Label(nodeLabel, value) <==>
            NODE_SELECTOR_KEY in annotations && DenotesLabel(annotations[NODE_SELECTOR_KEY], nodeLabel, value)
  {
    if NODE_SELECTOR_KEY in annotations {
      var text := annotations[NODE_SELECTOR_KEY];
      var parts := Split(text, '=');
      SplitParts(text, '=');
      JoinSplit(text, '=');
      if |parts| == 1 {
        PaddedExactly(text, nodeLabel);
        SingleText(text, nodeLabel, value);
      } else if |parts| == 2 {
        assert parts[1..] == [parts[1]];
        assert text == parts[0] + "=" + parts[1];
        PairText(parts[0], parts[1], nodeLabel, value);
      } else {
        ManyText(text, nodeLabel, value);
      }
    }
  }

  lemma SingleText(text: string, nodeLabel: string, value: string)
    requires '=' !in text
    ensures DenotesLabel(text, nodeLabel, value) <==> Padded(text, nodeLabel) && value == ""
  {
    forall left: string, right: string ensures text != left + "=" + right {
      assert (left + "=" + right)[|left|] == '=';
    }
  }

  lemma PairText(left: string, right: string, nodeLabel: string, value: string)
    requires '=' !in left && '=' !in right
    ensures DenotesLabel(left + "=" + right, nodeLabel, value) <==> nodeLabel == TrimSpace(left) && value == TrimSpace(right)
  {
    var text := left + "=" + right;
    assert text[|left|] == '=';
    PaddedExactly(left, nodeLabel);
    PaddedExactly(right, value);
    forall l, r | '=' !in l && '=' !in r && text == l + "=" + r ensures l == left && r == right {
      SplitCons(l, r, '=');
      SplitCons(left, right, '=');
      SplitPlain(r, '=');
      SplitPlain(right, '=');
      assert [l] + [r] == [left] + [right];
      assert ([l] + [r])[0] == l && ([l] + [r])[1] == r;
    }
  }

  lemma ManyText(text: string, nodeLabel: string, value: string)
    requires OccursTwice(text, '=')
    ensures !DenotesLabel(text, nodeLabel, value)
  {
    SplitParts(text, '=');
    forall l, r | '=' !in l && '=' !in r ensures text != l + "=" + r {
      SplitCons(l, r, '=');
      SplitPlain(r, '=');
    }
  }

  /** More than one label means more than one '='. */
  lemma TooManyExactly(annotations: map<string, string>)
    ensures SelectorOf(annotations).TooManyLabels? <==>
            NODE_SELECTOR_KEY in annotations && OccursTwice(annotations[NODE_SELECTOR_KEY], '=')
  {
    if NODE_SELECTOR_KEY in annotations { SplitParts(annotations[NODE_SELECTOR_KEY], '='); }
  }

  function CountOf(counts: map<string, nat>, resource: string): nat {
    if resource in counts then counts[resource] else 0
  }

  /** One more resource for each key that the annotations carry. */
  function CountInto(counts: map<string, nat>, annotations: map<string, string>, keys: seq<string>): map<string, nat>
    decreases |keys|
  {
    if keys == [] then counts
    else
      var n := |keys| - 1;
      var before := CountInto(counts, annotations, keys[..n]);
      if keys[n] in annotations
      then before[annotations[keys[n]] := CountOf(before, annotations[keys[n]]) + 1]
      else before
  }

  function Select(desired: map<string, string>, annotations: map<string, string>): map<string, string> {
    match SelectorOf(annotations)
    case Label(key, value) => desired[key := value]
    case _ => desired
  }

  predicate Accepted(found: Option<map<string, string>>) {
    found.Some? && !SelectorOf(found.value).TooManyLabels?
  }

  predicate AllAccepted(found: seq<Option<map<string, string>>>) {
    forall i :: 0 <= i < |found| ==> Accepted(found[i])
  }

  /** The tally after a list of network lookups, all of them accepted. */
  function TallyOf(start: Tally, found: seq<Option<map<string, string>>>, keys: seq<string>): Tally
    requires AllAccepted(found)
    decreases |found|
  {
    if found == [] then start
    else
      var n := |found| - 1;
      var before := TallyOf(start, found[..n], keys);
      Tally(CountInto(before.counts, found[n].value, keys), Select(before.desired, found[n].value))
  }

  lemma {:induction false} TallyConcat(start: Tally, a: seq<Option<map<string, string>>>, b: seq<Option<map<string, string>>>, keys: seq<string>)
    requires AllAccepted(a)
    requires AllAccepted(b)
    ensures TallyOf(start, a + b, keys) == TallyOf(TallyOf(start, a, keys), b, keys)
    decreases |b|
  {
    if b == [] {
      assert a + b == a;
    } else {
      var n := |b| - 1;
      assert (a + b)[..|a + b| - 1] == a + b[..n];
      TallyConcat(start, a, b[..n], keys);
    }
  }

  // ---------- what is counted: pairs of a network and a resource-name key ----------

  /** The key's annotation is the given resource; None stands for any resource. */
  predicate Names(annotations: map<string, string>, key: string, resource: Option<string>) {
    key in annotations && (resource.None? || annotations[key] == resource.value)
  }

  /** The pairs (network, key) whose annotation is the given resource. */
  ghost function Pairs(found: seq<Option<map<string, string>>>, keys: seq<string>, resource: Option<string>): set<(int, int)> {
    set i, j | 0 <= i < |found| && 0 <= j < |keys| && found[i].Some? && Names(found[i].value, keys[j], resource) :: (i, j)
  }

  /** The pairs of one network, tagged with its position. */
  ghost function Hits(annotations: map<string, string>, keys: seq<string>, resource: Option<string>, tag: int): set<(int, int)> {
    set j | 0 <= j < |keys| && Names(annotations, keys[j], resource) :: (tag, j)
  }

  lemma HitsSnoc(annotations: map<string, string>, keys: seq<string>, resource: Option<string>, tag: int)
    requires keys != []
    ensures var n := |keys| - 1;
            |Hits(annotations, keys, resource, tag)| ==
            |Hits(annotations, keys[..n], resource, tag)| + if Names(annotations, keys[n], resource) then 1 else 0
  {
    var n := |keys| - 1;
    var before := Hits(annotations, keys[..n], resource, tag);
    if Names(annotations, keys[n], resource) {
      assert Hits(annotations, keys, resource, tag) == before + {(tag, n)};
    } else {
      assert Hits(annotations, keys, resource, tag) == before;
    }
  }

  lemma PairsSnoc(found: seq<Option<map<string, string>>>, keys: seq<string>, resource: Option<string>)
    requires found != [] && found[|found| - 1].Some?
    ensures var n := |found| - 1;
            |Pairs(found, keys, resource)| == |Pairs(found[..n], keys, resource)| + |Hits(found[n].value, keys, resource, n)|
  {
    var n := |found| - 1;
    var before, hits := Pairs(found[..n], keys, resource), Hits(found[n].value, keys, resource, n);
    assert Pairs(found, keys, resource) == before + hits;
    assert before !! hits;
  }

  lemma {:induction false} CountIntoHits(counts: map<string, nat>, annotations: map<string, string>, keys: seq<string>, resource: string, tag: int)
    ensures CountOf(CountInto(counts, annotations, keys), resource) ==
            CountOf(counts, resource) + |Hits(annotations, keys, Some(resource), tag)|
    ensures |Hits(annotations, keys, Some(resource), tag)| <= |keys|
    decreases |keys|
  {
    if keys == [] {
      assert Hits(annotations, keys, Some(resource), tag) == {};
    } else {
      CountIntoHits(counts, annotations, keys[..|keys| - 1], resource, tag);
      HitsSnoc(annotations, keys, Some(resource), tag);
    }
  }

  /** Conservation: every resource is counted exactly once for each pair that names it. */
  lemma {:induction false} CountsArePairs(found: seq<Option<map<string, string>>>, keys: seq<string>, resource: string)
    requires AllAccepted(found)
    ensures CountOf(TallyOf(NOTHING, found, keys).counts, resource) == |Pairs(found, keys, Some(resource))|
    ensures |Pairs(found, keys, Some(resource))| <= |found| * |keys|
    decreases |found|
  {
    if found == [] {
      assert Pairs(found, keys, Some(resource)) == {};
    } else {
      var n := |found| - 1;
      CountsArePairs(found[..n], keys, resource);
      CountIntoHits(TallyOf(NOTHING, found[..n], keys).counts, found[n].value, keys, resource, n);
      PairsSnoc(found, keys, Some(resource));
      assert |found| * |keys| == n * |keys| + |keys|;
    }
  }

  /** Only positive counts are recorded. */
  lemma {:induction false} CountsPositive(counts: map<string, nat>, annotations: map<string, string>, keys: seq<string>)
    requires forall r :: r in counts ==> counts[r] > 0
    ensures forall r :: r in CountInto(counts, annotations, keys) ==> CountInto(counts, annotations, keys)[r] > 0
    decreases |keys|
  {
    if keys != [] { CountsPositive(counts, annotations, keys[..|keys| - 1]); }
  }

  lemma {:induction false} TallyPositive(found: seq<Option<map<string, string>>>, keys: seq<string>)
    requires AllAccepted(found)
    ensures forall r :: r in TallyOf(NOTHING, found, keys).counts ==> TallyOf(NOTHING, found, keys).counts[r] > 0
    decreases |found|
  {
    if found != [] {
      var n := |found| - 1;
      TallyPositive(found[..n], keys);
      CountsPositive(TallyOf(NOTHING, found[..n], keys).counts, found[n].value, keys);
    }
  }

  /** Each network and key is named at most once. */
  lemma {:induction false} PairsBound(found: seq<Option<map<string, string>>>, keys: seq<string>, resource: Option<string>)
    requires AllAccepted(found)
    ensures |Pairs(found, keys, resource)| <= |found| * |keys|
    decreases |found|
  {
    if found == [] {
      assert Pairs(found, keys, resource) == {};
    } else {
      var n := |found| - 1;
      PairsBound(found[..n], keys, resource);
      PairsSnoc(found, keys, resource);
      HitsBound(found[n].value, keys, resource, n);
      assert |found| * |keys| == n * |keys| + |keys|;
    }
  }

  lemma {:induction false} HitsBound(annotations: map<string, string>, keys: seq<string>, resource: Option<string>, tag: int)
    ensures |Hits(annotations, keys, resource, tag)| <= |keys|
    decreases |keys|
  {
    if keys == [] {
      assert Hits(annotations, keys, resource, tag) == {};
    } else {
      HitsBound(annotations, keys[..|keys| - 1], resource, tag);
      HitsSnoc(annotations, keys, resource, tag);
    }
  }

  // ---------- the total ----------

  ghost function Total(counts: map<string, nat>): nat
    decreases |counts|
  {
    if counts == map[] then 0
    else
      var r :| r in counts;
      counts[r] + Total(counts - {r})
  }

  /** The total can be taken apart at any entry. */
  lemma {:induction false} TotalWithout(counts: map<string, nat>, resource: string)
    requires resource in counts
    ensures Total(counts) == counts[resource] + Total(counts - {resource})
    decreases |counts|
  {
    var r :| r in counts && Total(counts) == counts[r] + Total(counts - {r});
    if r != resource {
      TotalWithout(counts - {r}, resource);
      TotalWithout(counts - {resource}, r);
      assert counts - {r} - {resource} == counts - {resource} - {r};
    }
  }

  lemma TotalIncremented(counts: map<string, nat>, resource: string)
    ensures Total(counts[resource := CountOf(counts, resource) + 1]) == Total(counts) + 1
  {
    var after := counts[resource := CountOf(counts, resource) + 1];
    TotalWithout(after, resource);
    assert after - {resource} == counts - {resource};
    if resource in counts {
      TotalWithout(counts, resource);
    } else {
      assert counts - {resource} == counts;
    }
  }

  lemma {:induction false} TotalCountedInto(counts: map<string, nat>, annotations: map<string, string>, keys: seq<string>, tag: int)
    ensures Total(CountInto(counts, annotations, keys)) == Total(counts) + |Hits(annotations, keys, None, tag)|
    decreases |keys|
  {
    if keys == [] {
      assert Hits(annotations, keys, None, tag) == {};
    } else {
      var n := |keys| - 1;
      TotalCountedInto(counts, annotations, keys[..n], tag);
      HitsSnoc(annotations, keys, None, tag);
      if keys[n] in annotations {
        TotalIncremented(CountInto(counts, annotations, keys[..n]), annotations[keys[n]]);
      }
    }
  }

  /** Conservation of the total: all counts together are the number of naming pairs. */
  lemma {:induction false} TotalIsPairs(found: seq<Option<map<string, string>>>, keys: seq<string>)
    requires AllAccepted(found)
    ensures Total(TallyOf(NOTHING, found, keys).counts) == |Pairs(found, keys, None)|
    decreases |found|
  {
    if found == [] {
      assert Pairs(found, keys, None) == {};
    } else {
      var n := |found| - 1;
      TotalIsPairs(found[..n], keys);
      TotalCountedInto(TallyOf(NOTHING, found[..n], keys).counts, found[n].value, keys, n);
      PairsSnoc(found, keys, None);
    }
  }

  // ---------- node selectors ----------

  predicate NamesLabel(found: seq<Option<map<string, string>>>, i: int, nodeLabel: string) {
    0 <= i < |found| && found[i].Some? && SelectorOf(found[i].value).Label? && SelectorOf(found[i].value).key == nodeLabel
  }

  /** The last network of the list that names the label, or -1. */
  function LastNaming(found: seq<Option<map<string, string>>>, nodeLabel: string): int
    decreases |found|
  {
    if found == [] then -1
    else if NamesLabel(found, |found| - 1, nodeLabel) then |found| - 1
    else LastNaming(found[..|found| - 1], nodeLabel)
  }

  lemma {:induction false} LastNamingIsLast(found: seq<Option<map<string, string>>>, nodeLabel: string)
    ensures var last := LastNaming(found, nodeLabel);
            && -1 <= last < |found| && (last >= 0 ==> NamesLabel(found, last, nodeLabel))
            && forall k :: last < k < |found| ==> !NamesLabel(found, k, nodeLabel)
    decreases |found|
  {
    if found != [] {
      var n := |found| - 1;
      LastNamingIsLast(found[..n], nodeLabel);
      forall k | 0 <= k < n ensures NamesLabel(found[..n], k, nodeLabel) == NamesLabel(found, k, nodeLabel) {}
    }
  }

  /** The last processed network naming a label decides its value; labels come from nowhere else. */
  lemma {:induction false} LastNetworkSelects(found: seq<Option<map<string, string>>>, keys: seq<string>, nodeLabel: string)
    requires AllAccepted(found)
    ensures var desired, last := TallyOf(NOTHING, found, keys).desired, LastNaming(found, nodeLabel);
            && (nodeLabel in desired <==> last >= 0)
            && (last >= 0 ==> last < |found| && NamesLabel(found, last, nodeLabel) &&
                              desired[nodeLabel] == SelectorOf(found[last].value).value)
    decreases |found|
  {
    LastNamingIsLast(found, nodeLabel);
    if found != [] {
      var n := |found| - 1;
      LastNetworkSelects(found[..n], keys, nodeLabel);
      LastNamingIsLast(found[..n], nodeLabel);
    }
  }
}
