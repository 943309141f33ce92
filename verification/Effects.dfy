/**
 What the patch does for the networks a pod selects: which are looked up, what is counted for
 them and where it goes, the node selector, and the pods that are refused.
 */
module Effects {
  import opened Wrappers
  import opened Text
  import opened JsonPatch
  import opened PodView
  import opened Hugepages
  import opened PatchPlan
  import opened PodTransform
  import opened Selections
  import opened NadCache
  import opened Networks
  import opened Injections
  import opened Decision
  import opened Admission

  // ---------- the networks that are looked up ----------

  /** The default network if it is a single one, then the additional ones. */
  function NetworksOf(c: Case): seq<Element> {
    var defaults := ElementsAt(DEFAULT_NETWORK_KEY, PodOf(c.doc), c.namespace, c.injections, c.env);
    var networks := ElementsAt(NETWORKS_KEY, PodOf(c.doc), c.namespace, c.injections, c.env);
    (if defaults.Some? && |defaults.value| == 1 then defaults.value else [])
    + (if networks.Some? then networks.value else [])
  }

  function LookedUp(c: Case, e: Element): Option<map<string, string>> {
    Lookup(c.env.table, c.env.store, e.namespace, e.name)
  }

  /**
   A pod that proceeds has had exactly these looked up: the default network, if its annotation
   selects exactly one, and then every additional network, in order.
   */
  lemma FoundExactly(c: Case)
    requires Judge(PodOf(c.doc), c.namespace, c.injections, c.env).Proceed?
    ensures var defaults := ElementsAt(DEFAULT_NETWORK_KEY, PodOf(c.doc), c.namespace, c.injections, c.env);
            var networks := ElementsAt(NETWORKS_KEY, PodOf(c.doc), c.namespace, c.injections, c.env);
            && defaults.Some? && networks.Some?
            && var first := if |defaults.value| == 1 then 1 else 0;
               && |FoundIn(c)| == first + |networks.value|
               && (first == 1 ==> FoundIn(c)[0] == LookedUp(c, defaults.value[0]))
               && forall k :: 0 <= k < |networks.value| ==> FoundIn(c)[first + k] == LookedUp(c, networks.value[k])
    ensures |FoundIn(c)| == |NetworksOf(c)|
    ensures forall i :: 0 <= i < |NetworksOf(c)| ==> FoundIn(c)[i] == LookedUp(c, NetworksOf(c)[i])
  {
  }

  // ---------- conservation ----------

  /** The network's annotation under the key is the given resource; None stands for any resource. */
  predicate NetworkNames(c: Case, e: Element, key: string, resource: Option<string>) {
    var annotations := LookedUp(c, e);
    annotations.Some? && key in annotations.value && (resource.Some? ==> annotations.value[key] == resource.value)
  }

  /** The pairs of a selected network and a resource-name key whose annotation is the given resource. */
  ghost function NamingPairs(c: Case, resource: Option<string>): set<(int, int)> {
    set i, j | 0 <= i < |NetworksOf(c)| && 0 <= j < |c.env.resourceKeys|
               && NetworkNames(c, NetworksOf(c)[i], c.env.resourceKeys[j], resource) :: (i, j)
  }

  /** How often a resource is named by the selected networks' annotations. */
  ghost function Named(c: Case, resource: string): nat {
    |NamingPairs(c, Some(resource))|
  }

  lemma NamingPairsFound(c: Case, resource: Option<string>)
    requires Judge(PodOf(c.doc), c.namespace, c.injections, c.env).Proceed?
    ensures NamingPairs(c, resource) == Pairs(FoundIn(c), c.env.resourceKeys, resource)
  {
    FoundExactly(c);
    forall i, j | 0 <= i < |NetworksOf(c)| && 0 <= j < |c.env.resourceKeys|
      ensures NetworkNames(c, NetworksOf(c)[i], c.env.resourceKeys[j], resource) <==>
              FoundIn(c)[i].Some? && Networks.Names(FoundIn(c)[i].value, c.env.resourceKeys[j], resource)
    {
    }
  }

  lemma CountIsNamed(c: Case, resource: string)
    requires Judge(PodOf(c.doc), c.namespace, c.injections, c.env).Proceed?
    ensures CountOf(PlanIn(c).counts, resource) == Named(c, resource)
    ensures Named(c, resource) <= |NetworksOf(c)| * |c.env.resourceKeys|
    ensures resource in PlanIn(c).counts <==> Named(c, resource) > 0
  {
    FoundExactly(c);
    NamingPairsFound(c, Some(resource));
    CountsArePairs(FoundIn(c), c.env.resourceKeys, resource);
    TallyPositive(FoundIn(c), c.env.resourceKeys);
  }

  /**
   Honoring existing resources: container 0's request and limit for every resource each grow
   by the number of (network, key) pairs that name it, so their difference stays; the other
   containers keep theirs.
   */
  lemma HonoredGrowth(c: Case, patch: seq<Op>, after: Json, resource: string, i: nat)
    requires Admits(c, patch) && Apply(c.doc, patch) == Some(after) && c.env.honor
    requires i < |PodOf(c.doc).containers|
    ensures |PodOf(after).containers| == |PodOf(c.doc).containers|
    ensures var grown := if i == 0 then Named(c, resource) as real else 0.0;
            var old_, new_ := PodOf(c.doc).containers[i], PodOf(after).containers[i];
            && QuantityIn(new_.requests, resource) == QuantityIn(old_.requests, resource) + grown
            && QuantityIn(new_.limits, resource) == QuantityIn(old_.limits, resource) + grown
  {
    PatchedContainer(c, patch, after, i);
    CountIsNamed(c, resource);
    HonoredContainer(PodOf(c.doc).containers, i, PlanIn(c), resource);
  }

  lemma HonoredContainer(containers: seq<Container>, i: nat, plan: Plan, name: string)
    requires i < |containers| && plan.honor
    ensures var grown := if i == 0 then CountOf(plan.counts, name) as real else 0.0;
            var old_, new_ := containers[i], ContainerAfter(containers, i, plan);
            && QuantityIn(new_.requests, name) == QuantityIn(old_.requests, name) + grown
            && QuantityIn(new_.limits, name) == QuantityIn(old_.limits, name) + grown
  {
  }

  ghost function Sum(quantities: map<string, real>): real
    decreases |quantities|
  {
    if quantities == map[] then 0.0
    else
      var name :| name in quantities;
      quantities[name] + Sum(quantities - {name})
  }

  lemma {:induction false} SumWithout(quantities: map<string, real>, name: string)
    requires name in quantities
    ensures Sum(quantities) == quantities[name] + Sum(quantities - {name})
    decreases |quantities|
  {
    var first :| first in quantities && Sum(quantities) == quantities[first] + Sum(quantities - {first});
    if first != name {
      SumWithout(quantities - {first}, name);
      SumWithout(quantities - {name}, first);
      assert quantities - {first} - {name} == quantities - {name} - {first};
    }
  }

  lemma SumUpdated(quantities: map<string, real>, name: string, value: real)
    ensures Sum(quantities[name := value]) == Sum(quantities) - QuantityIn(quantities, name) + value
  {
    var after := quantities[name := value];
    SumWithout(after, name);
    assert after - {name} == quantities - {name};
    if name in quantities {
      SumWithout(quantities, name);
    } else {
      assert quantities - {name} == quantities;
    }
  }

  /** Every counted resource raised by its count. */
  function Raised(existing: map<string, real>, counts: map<string, nat>): map<string, real> {
    existing + map name | name in counts :: counts[name] as real + QuantityIn(existing, name)
  }

  lemma {:induction false} RaisedSum(existing: map<string, real>, counts: map<string, nat>)
    ensures Sum(Raised(existing, counts)) == Sum(existing) + Total(counts) as real
    decreases |counts|
  {
    if counts == map[] {
      NothingRaised(existing);
    } else {
      var name :| name in counts;
      RaisedSum(existing, counts - {name});
      RaisedSumStep(existing, counts, name);
    }
  }

  lemma RaisedSumStep(existing: map<string, real>, counts: map<string, nat>, name: string)
    requires name in counts
    ensures Sum(Raised(existing, counts)) - Sum(Raised(existing, counts - {name})) == counts[name] as real
    ensures Total(counts) == counts[name] + Total(counts - {name})
  {
    TotalWithout(counts, name);
    RaisedOne(existing, counts, name);
    SumUpdated(Raised(existing, counts - {name}), name, counts[name] as real + QuantityIn(existing, name));
  }

  lemma RaisedOne(existing: map<string, real>, counts: map<string, nat>, name: string)
    requires name in counts
    ensures Raised(existing, counts) == Raised(existing, counts - {name})[name := counts[name] as real + QuantityIn(existing, name)]
    ensures QuantityIn(Raised(existing, counts - {name}), name) == QuantityIn(existing, name)
  {
  }

  lemma HonoredIsRaised(containers: seq<Container>, plan: Plan)
    requires containers != [] && plan.honor
    ensures ContainerAfter(containers, 0, plan).requests == Raised(containers[0].requests, plan.counts)
    ensures ContainerAfter(containers, 0, plan).limits == Raised(containers[0].limits, plan.counts)
  {
  }

  lemma NothingRaised(existing: map<string, real>)
    ensures Raised(existing, map[]) == existing
  {
  }

  /**
   Honoring existing resources: over all resources together, container 0's requests and limits
   grow by the number of all naming pairs, which is at most the networks looked up (the
   additional ones and at most one more) times the keys.
   */
  lemma HonoredTotal(c: Case, patch: seq<Op>, after: Json)
    requires Admits(c, patch) && Apply(c.doc, patch) == Some(after) && c.env.honor
    requires PodOf(c.doc).containers != []
    ensures |PodOf(after).containers| == |PodOf(c.doc).containers|
    ensures var grown := |NamingPairs(c, None)|;
            var old_, new_ := PodOf(c.doc).containers[0], PodOf(after).containers[0];
            var networks := ElementsAt(NETWORKS_KEY, PodOf(c.doc), c.namespace, c.injections, c.env);
            && Sum(new_.requests) == Sum(old_.requests) + grown as real
            && Sum(new_.limits) == Sum(old_.limits) + grown as real
            && networks.Some? && grown <= (|networks.value| + 1) * |c.env.resourceKeys|
  {
    var containers, plan := PodOf(c.doc).containers, PlanIn(c);
    PatchedContainer(c, patch, after, 0);
    RaisedSum(containers[0].requests, plan.counts);
    RaisedSum(containers[0].limits, plan.counts);
    HonoredIsRaised(containers, plan);
    NothingRaised(containers[0].requests);
    NothingRaised(containers[0].limits);
    TotalIsPairs(FoundIn(c), c.env.resourceKeys);
    GrowthBound(c);
  }

  lemma GrowthBound(c: Case)
    requires Judge(PodOf(c.doc), c.namespace, c.injections, c.env).Proceed?
    ensures var networks := ElementsAt(NETWORKS_KEY, PodOf(c.doc), c.namespace, c.injections, c.env);
            && networks.Some?
            && |NamingPairs(c, None)| == |Pairs(FoundIn(c), c.env.resourceKeys, None)|
            && |NamingPairs(c, None)| <= (|networks.value| + 1) * |c.env.resourceKeys|
  {
    FoundExactly(c);
    NamingPairsFound(c, None);
    PairsBound(FoundIn(c), c.env.resourceKeys, None);
    var n := |ElementsAt(NETWORKS_KEY, PodOf(c.doc), c.namespace, c.injections, c.env).value| + 1;
    TimesGrows(|FoundIn(c)|, n, |c.env.resourceKeys|);
  }

  lemma TimesGrows(a: nat, b: nat, k: nat)
    requires a <= b
    ensures a * k <= b * k
  {
  }

  predicate SameEntry(a: map<string, real>, b: map<string, real>, name: string) {
    (name in a <==> name in b) && (name in a ==> a[name] == b[name])
  }

  lemma UnhonoredContainer(containers: seq<Container>, i: nat, plan: Plan, name: string)
    requires i < |containers| && !plan.honor
    ensures var old_, new_ := containers[i], ContainerAfter(containers, i, plan);
            if i == 0 && name in plan.counts && forall j :: 0 <= j < |containers| ==> name !in containers[j].requests && name !in containers[j].limits
            then
              && name in new_.requests && new_.requests[name] == plan.counts[name] as real
              && name in new_.limits && new_.limits[name] == plan.counts[name] as real
            else SameEntry(old_.requests, new_.requests, name) && SameEntry(old_.limits, new_.limits, name)
  {
    assert name in WrittenResources(containers, plan) <==> name in plan.counts && !NamedByAny(containers, name);
    assert NamedByAny(containers, name) <==>
           !forall j :: 0 <= j < |containers| ==> name !in containers[j].requests && name !in containers[j].limits;
  }

  /**
   Not honoring them: a counted resource that is in no container's requests or limits gets
   request = limit = its count in container 0. One that is in any container's, and one that is not
   counted, keeps every entry of every container as it was, as do the containers after the first.
   */
  lemma UnhonoredEntries(c: Case, patch: seq<Op>, after: Json, resource: string, i: nat)
    requires Admits(c, patch) && Apply(c.doc, patch) == Some(after) && !c.env.honor
    requires i < |PodOf(c.doc).containers|
    ensures |PodOf(after).containers| == |PodOf(c.doc).containers|
    ensures var containers := PodOf(c.doc).containers;
            var old_, new_ := containers[i], PodOf(after).containers[i];
            if i == 0 && Named(c, resource) > 0
               && forall j :: 0 <= j < |containers| ==> resource !in containers[j].requests && resource !in containers[j].limits
            then
              && resource in new_.requests && new_.requests[resource] == Named(c, resource) as real
              && resource in new_.limits && new_.limits[resource] == Named(c, resource) as real
            else SameEntry(old_.requests, new_.requests, resource) && SameEntry(old_.limits, new_.limits, resource)
  {
    PatchedContainer(c, patch, after, i);
    CountIsNamed(c, resource);
    UnhonoredContainer(PodOf(c.doc).containers, i, PlanIn(c), resource);
  }

  // ---------- node selector ----------

  /** The network's selector text says that the label is to have the value. */
  ghost predicate NetworkSelects(c: Case, e: Element, nodeLabel: string, value: string) {
    var annotations := LookedUp(c, e);
    && annotations.Some? && NODE_SELECTOR_KEY in annotations.value
    && DenotesLabel(annotations.value[NODE_SELECTOR_KEY], nodeLabel, value)
  }

  lemma NetworkSelectsExactly(c: Case, e: Element, nodeLabel: string, value: string)
    ensures NetworkSelects(c, e, nodeLabel, value) <==>
            LookedUp(c, e).Some? && SelectorOf(LookedUp(c, e).value) == Label(nodeLabel, value)
  {
    if LookedUp(c, e).Some? { SelectorExactly(LookedUp(c, e).value, nodeLabel, value); }
  }

  /** The pod's own labels, overridden by those of its networks. */
  lemma SelectorOverlaid(c: Case, patch: seq<Op>, after: Json, nodeLabel: string)
    requires Admits(c, patch) && Apply(c.doc, patch) == Some(after)
    ensures Proceeds(c)
    ensures var own, selector := PodOf(c.doc).nodeSelector, PodOf(after).nodeSelector;
            var last := LastNaming(FoundIn(c), nodeLabel);
            && (last < 0 ==> (nodeLabel in selector <==> nodeLabel in own) &&
                             (nodeLabel in own ==> selector[nodeLabel] == own[nodeLabel]))
            && (last >= 0 ==> last < |FoundIn(c)| && NamesLabel(FoundIn(c), last, nodeLabel) && nodeLabel in selector &&
                              selector[nodeLabel] == SelectorOf(FoundIn(c)[last].value).value)
  {
    PatchedPod(c, patch, after);
    LastNetworkSelects(FoundIn(c), c.env.resourceKeys, nodeLabel);
  }

  /** No network says anything about the label. */
  ghost predicate Unselected(c: Case, nodeLabel: string) {
    forall i, value :: 0 <= i < |NetworksOf(c)| ==> !NetworkSelects(c, NetworksOf(c)[i], nodeLabel, value)
  }

  /** Network i is the last one that says something about the label, and this is the value it gives. */
  ghost predicate LastSelects(c: Case, i: int, nodeLabel: string, value: string) {
    && 0 <= i < |NetworksOf(c)| && NetworkSelects(c, NetworksOf(c)[i], nodeLabel, value)
    && forall k, later :: i < k < |NetworksOf(c)| ==> !NetworkSelects(c, NetworksOf(c)[k], nodeLabel, later)
  }

  lemma SelectsIsNames(c: Case, i: nat, nodeLabel: string, value: string)
    requires Judge(PodOf(c.doc), c.namespace, c.injections, c.env).Proceed? && i < |NetworksOf(c)|
    ensures i < |FoundIn(c)|
    ensures NetworkSelects(c, NetworksOf(c)[i], nodeLabel, value) <==>
            NamesLabel(FoundIn(c), i, nodeLabel) && SelectorOf(FoundIn(c)[i].value).value == value
  {
    FoundExactly(c);
    NetworkSelectsExactly(c, NetworksOf(c)[i], nodeLabel, value);
  }

  lemma UnselectedExactly(c: Case, nodeLabel: string)
    requires Judge(PodOf(c.doc), c.namespace, c.injections, c.env).Proceed?
    ensures Unselected(c, nodeLabel) <==> LastNaming(FoundIn(c), nodeLabel) < 0
  {
    var last := LastNaming(FoundIn(c), nodeLabel);
    FoundExactly(c);
    LastNamingIsLast(FoundIn(c), nodeLabel);
    if last >= 0 {
      SelectsIsNames(c, last, nodeLabel, SelectorOf(FoundIn(c)[last].value).value);
    } else {
      forall i, value | 0 <= i < |NetworksOf(c)| ensures !NetworkSelects(c, NetworksOf(c)[i], nodeLabel, value) {
        SelectsIsNames(c, i, nodeLabel, value);
      }
    }
  }

  lemma LastNamingSelects(c: Case, nodeLabel: string)
    requires Judge(PodOf(c.doc), c.namespace, c.injections, c.env).Proceed? && LastNaming(FoundIn(c), nodeLabel) >= 0
    ensures var last := LastNaming(FoundIn(c), nodeLabel);
            && last < |FoundIn(c)| && NamesLabel(FoundIn(c), last, nodeLabel)
            && LastSelects(c, last, nodeLabel, SelectorOf(FoundIn(c)[last].value).value)
  {
    var last := LastNaming(FoundIn(c), nodeLabel);
    FoundExactly(c);
    LastNamingIsLast(FoundIn(c), nodeLabel);
    SelectsIsNames(c, last, nodeLabel, SelectorOf(FoundIn(c)[last].value).value);
    forall k, later | last < k < |NetworksOf(c)| ensures !NetworkSelects(c, NetworksOf(c)[k], nodeLabel, later) {
      SelectsIsNames(c, k, nodeLabel, later);
    }
  }

  lemma LastSelectsIsLastNaming(c: Case, i: int, nodeLabel: string, value: string)
    requires Judge(PodOf(c.doc), c.namespace, c.injections, c.env).Proceed? && LastSelects(c, i, nodeLabel, value)
    ensures LastNaming(FoundIn(c), nodeLabel) == i && 0 <= i < |FoundIn(c)| && NamesLabel(FoundIn(c), i, nodeLabel)
    ensures SelectorOf(FoundIn(c)[i].value).value == value
  {
    var last := LastNaming(FoundIn(c), nodeLabel);
    FoundExactly(c);
    LastNamingIsLast(FoundIn(c), nodeLabel);
    SelectsIsNames(c, i, nodeLabel, value);
    if i < last { SelectsIsNames(c, last, nodeLabel, SelectorOf(FoundIn(c)[last].value).value); }
  }

  /**
   Every label of the final selector has the value of the last processed network whose selector
   text says something about it, or else the pod's own.
   */
  lemma NodeSelectorFold(c: Case, patch: seq<Op>, after: Json, nodeLabel: string)
    requires Admits(c, patch) && Apply(c.doc, patch) == Some(after)
    ensures var own, selector := PodOf(c.doc).nodeSelector, PodOf(after).nodeSelector;
            && (Unselected(c, nodeLabel) ==>
                  (nodeLabel in selector <==> nodeLabel in own) && (nodeLabel in own ==> selector[nodeLabel] == own[nodeLabel]))
            && (forall i, value :: LastSelects(c, i, nodeLabel, value) ==> nodeLabel in selector && selector[nodeLabel] == value)
            && (Unselected(c, nodeLabel) || exists i, value :: LastSelects(c, i, nodeLabel, value))
  {
    SelectorOverlaid(c, patch, after, nodeLabel);
    UnselectedExactly(c, nodeLabel);
    var last := LastNaming(FoundIn(c), nodeLabel);
    if last >= 0 { LastNamingSelects(c, nodeLabel); }
    forall i, value | LastSelects(c, i, nodeLabel, value)
      ensures nodeLabel in PodOf(after).nodeSelector && PodOf(after).nodeSelector[nodeLabel] == value
    {
      LastSelectsIsLastNaming(c, i, nodeLabel, value);
    }
  }

  // ---------- refusals ----------

  /** Neither the cache nor the API server has the network. */
  predicate Missing(env: Environment, e: Element) {
    Misses(env.table, e.namespace, e.name) && NadName(e.namespace, e.name) !in env.store
  }

  /** The network's selector text has more than one '='. */
  predicate OverLabelled(env: Environment, e: Element) {
    var annotations := Lookup(env.table, env.store, e.namespace, e.name);
    annotations.Some? && NODE_SELECTOR_KEY in annotations.value && OccursTwice(annotations.value[NODE_SELECTOR_KEY], '=')
  }

  lemma AcceptedExactly(env: Environment, e: Element)
    ensures Accepted(Lookup(env.table, env.store, e.namespace, e.name)) <==> !Missing(env, e) && !OverLabelled(env, e)
  {
    LookupExactly(env.table, env.store, e.namespace, e.name);
    var annotations := Lookup(env.table, env.store, e.namespace, e.name);
    if annotations.Some? { TooManyExactly(annotations.value); }
  }

  predicate SomeRefused(elements: seq<Element>, env: Environment) {
    exists i :: 0 <= i < |elements| && (Missing(env, elements[i]) || OverLabelled(env, elements[i]))
  }

  lemma RefusedAmong(elements: seq<Element>, env: Environment)
    ensures SomeRefused(elements, env) <==> !AllAccepted(FoundAll(elements, env.table, env.store))
  {
    var found := FoundAll(elements, env.table, env.store);
    forall i | 0 <= i < |elements|
      ensures Accepted(found[i]) <==> !Missing(env, elements[i]) && !OverLabelled(env, elements[i])
    {
      AcceptedExactly(env, elements[i]);
    }
    if SomeRefused(elements, env) {
      var i :| 0 <= i < |elements| && (Missing(env, elements[i]) || OverLabelled(env, elements[i]));
      assert !Accepted(found[i]);
    }
  }

  /**
   A pod is denied exactly when a network it selects is neither in the cache nor in the API
   server, or has more than one '=' in its selector: the default network if it is a single one, or
   an additional network, provided the annotations read up to there are well-formed. A malformed
   one is a bad request, and a pod with neither annotation, its own or injected, is left alone.
   */
  lemma RefusedExactly(pod: Pod, namespace: string, injections: seq<Injection>, env: Environment,
                       order: EmissionOrder, response: Response)
    requires AnswersPod(pod, namespace, injections, env, order, response)
    ensures var defaults := ElementsAt(DEFAULT_NETWORK_KEY, pod, namespace, injections, env);
            var networks := ElementsAt(NETWORKS_KEY, pod, namespace, injections, env);
            var defaultRefused := defaults.Some? && |defaults.value| == 1 && SomeRefused(defaults.value, env);
            && (response == Denied <==>
                  defaultRefused || (defaults.Some? && networks.Some? && SomeRefused(networks.value, env)))
            && (response == BadRequest <==> defaults.None? || (!defaultRefused && networks.None?))
            && (response == AllowedUnchanged <==>
                  && DEFAULT_NETWORK_KEY !in pod.annotations && NETWORKS_KEY !in pod.annotations
                  && forall p :: p in injections ==>
                       && !CarriesKey(p, DEFAULT_NETWORK_KEY) && !CarriesKey(p, NETWORKS_KEY))
  {
    var defaults := ElementsAt(DEFAULT_NETWORK_KEY, pod, namespace, injections, env);
    var networks := ElementsAt(NETWORKS_KEY, pod, namespace, injections, env);
    if defaults.Some? { RefusedAmong(SingleOnly(defaults.value), env); }
    if networks.Some? { RefusedAmong(networks.value, env); }
    SkippedExactly(pod, namespace, injections, env);
  }

  lemma SkippedExactly(pod: Pod, namespace: string, injections: seq<Injection>, env: Environment)
    ensures Judge(pod, namespace, injections, env).Skip? <==>
            && DEFAULT_NETWORK_KEY !in pod.annotations && NETWORKS_KEY !in pod.annotations
            && forall p :: p in injections ==> !CarriesKey(p, DEFAULT_NETWORK_KEY) && !CarriesKey(p, NETWORKS_KEY)
  {
    NotInjected(injections, DEFAULT_NETWORK_KEY);
    NotInjected(injections, NETWORKS_KEY);
  }

  // ---------- hugepages ----------

  /** CONTAINER_NAME is ensured in exactly the containers that have a non-zero hugepage entry. */
  lemma ContainerNamesEnsured(c: Case, patch: seq<Op>, after: Json, i: nat)
    requires Admits(c, patch) && Apply(c.doc, patch) == Some(after) && c.env.hugepages
    requires i < |PodOf(c.doc).containers|
    ensures i < |PodOf(after).containers|
    ensures PodOf(after).containers[i].env ==
            var view := PodOf(c.doc).containers[i];
            if PlanIn(c).counts != map[] && HasHugepages(view) && CONTAINER_NAME !in view.env
            then view.env + [CONTAINER_NAME] else view.env
  {
    PatchedContainer(c, patch, after, i);
  }
}
