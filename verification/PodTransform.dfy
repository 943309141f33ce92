/**
 What the pod should become: a declarative transform on the pod's document, and the same
 transform on the decoded pod. Neither mentions patches, paths or iteration orders.
 */
module PodTransform {
  import opened JsonPatch
  import opened PodView
  import opened Hugepages
  import opened PatchPlan

  // ---------- on the document ----------

  function NewResources(resources: Json, containers: seq<Container>, plan: Plan): Json
    requires containers != []
  {
    Put(Put(resources,
            "requests", Obj(Fields(Member(resources, "requests")) + NumberFields(NewRequests(containers, plan)))),
        "limits", Obj(Fields(Member(resources, "limits")) + NumberFields(NewLimits(containers, plan))))
  }

  function Appended(j: Json, key: string, item: Json): Json {
    Put(j, key, Arr(Items(Member(j, key)) + [item]))
  }

  function WithEnv(c: Json, plan: Plan): Json {
    var view := ContainerOf(c);
    if plan.hugepages && HasHugepages(view) && CONTAINER_NAME !in view.env
    then Appended(c, "env", EnvJson(CONTAINER_NAME, view.name))
    else c
  }

  function WithMount(c: Json): Json {
    if POD_NET_INFO !in ContainerOf(c).volumeMounts then Appended(c, "volumeMounts", MOUNT_JSON) else c
  }

  function WithResources(c: Json, containers: seq<Container>, plan: Plan): Json
    requires containers != []
  {
    Put(c, "resources", NewResources(Member(c, "resources"), containers, plan))
  }

  /** Container i: only the first one gets resources; hugepages are those of the original pod. */
  function NewContainer(items: seq<Json>, i: nat, plan: Plan): Json
    requires i < |items|
  {
    var c := WithMount(WithEnv(items[i], plan));
    if i == 0 then WithResources(c, ContainersOf(items), plan) else c
  }

  function NewContainers(items: seq<Json>, plan: Plan): seq<Json> {
    seq(|items|, i requires 0 <= i < |items| => NewContainer(items, i, plan))
  }

  function WithVolume(spec: Json, pod: Pod, list: seq<HugepageResource>): Json {
    if POD_NET_INFO !in pod.volumes then Appended(spec, "volumes", VolumeJson(VolumeItems(pod, list))) else spec
  }

  function WithNodeSelector(doc: Json, pod: Pod, desired: map<string, string>): Json {
    var target := pod.nodeSelector + desired;
    if target == map[] then doc
    else Put(doc, "spec", Put(Member(doc, "spec"), "nodeSelector", Obj(StringFields(target))))
  }

  function WithAnnotations(doc: Json, pod: Pod, injected: map<string, string>): Json {
    if injected == map[] then doc
    else Put(doc, "metadata",
             Put(Member(doc, "metadata"), "annotations", Obj(StringFields(MergedAnnotations(pod, injected)))))
  }

  function WithContainers(doc: Json, items: seq<Json>): Json {
    Put(doc, "spec", Put(Member(doc, "spec"), "containers", Arr(items)))
  }

  /** The pod's document after the mutation; `list` is what the new volume publishes. */
  function Transform(doc: Json, plan: Plan, list: seq<HugepageResource>): Json {
    var pod := PodOf(doc);
    if plan.counts == map[] then WithNodeSelector(doc, pod, plan.desired)
    else
      Finished(doc, NewContainers(ContainerItems(doc), plan), pod, plan, list)
  }

  /** The document with its final containers, volume, annotations and node selector. */
  function Finished(doc: Json, items: seq<Json>, pod: Pod, plan: Plan, list: seq<HugepageResource>): Json {
    var spec := WithVolume(Put(Member(doc, "spec"), "containers", Arr(items)), pod, list);
    WithNodeSelector(WithAnnotations(Put(doc, "spec", spec), pod, plan.injected), pod, plan.desired)
  }

  /** What the document must hold for the patch to apply. */
  predicate Applicable(doc: Json, plan: Plan) {
    && (plan.counts != map[] ==> ContainerItems(doc) != [] && Member(ContainerItems(doc)[0], "resources").Obj?)
    && (plan.counts != map[] && plan.injected != map[] ==> Member(doc, "metadata").Obj?)
    && (PodOf(doc).nodeSelector + plan.desired != map[] ==> Member(doc, "spec").Obj?)
  }

  // ---------- on the decoded pod ----------

  function WithName(names: seq<string>, name: string): seq<string> {
    if name in names then names else names + [name]
  }

  function ContainerAfter(containers: seq<Container>, i: nat, plan: Plan): Container
    requires i < |containers|
  {
    var c := containers[i];
    Container(
      c.name,
      if i == 0 then c.requests + NewRequests(containers, plan) else c.requests,
      if i == 0 then c.limits + NewLimits(containers, plan) else c.limits,
      if plan.hugepages && HasHugepages(c) then WithName(c.env, CONTAINER_NAME) else c.env,
      WithName(c.volumeMounts, POD_NET_INFO))
  }

  function ContainersAfter(containers: seq<Container>, plan: Plan): seq<Container> {
    seq(|containers|, i requires 0 <= i < |containers| => ContainerAfter(containers, i, plan))
  }

  function PodAfter(pod: Pod, plan: Plan): Pod {
    var selected := pod.(nodeSelector := pod.nodeSelector + plan.desired);
    if plan.counts == map[] then selected
    else
      selected.(
        annotations := MergedAnnotations(pod, plan.injected),
        volumes := WithName(pod.volumes, POD_NET_INFO),
        containers := ContainersAfter(pod.containers, plan))
  }

  lemma EnvDecodes(c: Json, plan: Plan)
    requires IsContainer(c)
    ensures var view := ContainerOf(c);
            ContainerOf(WithEnv(c, plan)) ==
            view.(env := if plan.hugepages && HasHugepages(view) then WithName(view.env, CONTAINER_NAME) else view.env)
    ensures IsContainer(WithEnv(c, plan)) && Member(WithEnv(c, plan), "name") == Member(c, "name")
  {
    NamesAppended(Member(c, "env"), EnvJson(CONTAINER_NAME, ContainerOf(c).name));
  }

  lemma MountDecodes(c: Json)
    requires IsContainer(c)
    ensures ContainerOf(WithMount(c)) ==
            ContainerOf(c).(volumeMounts := WithName(ContainerOf(c).volumeMounts, POD_NET_INFO))
    ensures IsContainer(WithMount(c)) && Member(WithMount(c), "name") == Member(c, "name")
  {
    NamesAppended(Member(c, "volumeMounts"), MOUNT_JSON);
  }

  lemma ResourcesDecode(c: Json, containers: seq<Container>, plan: Plan)
    requires IsContainer(c) && containers != []
    ensures var view := ContainerOf(c);
            ContainerOf(WithResources(c, containers, plan)) ==
            view.(requests := view.requests + NewRequests(containers, plan), limits := view.limits + NewLimits(containers, plan))
    ensures IsContainer(WithResources(c, containers, plan))
    ensures Member(WithResources(c, containers, plan), "name") == Member(c, "name")
  {
    var resources := Member(c, "resources");
    QuantitiesUpdated(Member(resources, "requests"), NewRequests(containers, plan));
    QuantitiesUpdated(Member(resources, "limits"), NewLimits(containers, plan));
    var after := NewResources(resources, containers, plan);
    assert Member(after, "requests") == Obj(Fields(Member(resources, "requests")) + NumberFields(NewRequests(containers, plan)));
    assert Member(after, "limits") == Obj(Fields(Member(resources, "limits")) + NumberFields(NewLimits(containers, plan)));
  }

  lemma ContainerDecodes(items: seq<Json>, i: nat, plan: Plan)
    requires i < |items| && IsContainer(items[i])
    ensures ContainerOf(NewContainer(items, i, plan)) == ContainerAfter(ContainersOf(items), i, plan)
    ensures IsContainer(NewContainer(items, i, plan))
    ensures Member(NewContainer(items, i, plan), "name") == Member(items[i], "name")
  {
    EnvDecodes(items[i], plan);
    MountDecodes(WithEnv(items[i], plan));
    if i == 0 { ResourcesDecode(WithMount(WithEnv(items[i], plan)), ContainersOf(items), plan); }
  }

  /** A list of containers as WellTyped asks for it. */
  predicate AreContainers(items: seq<Json>) {
    forall i :: 0 <= i < |items| ==> IsContainer(items[i]) && IsText(Member(items[i], "name"))
  }

  lemma NewContainersDecode(items: seq<Json>, plan: Plan)
    requires AreContainers(items)
    ensures AreContainers(NewContainers(items, plan))
    ensures ContainersOf(NewContainers(items, plan)) == ContainersAfter(ContainersOf(items), plan)
  {
    forall i | 0 <= i < |items|
      ensures ContainerOf(NewContainer(items, i, plan)) == ContainerAfter(ContainersOf(items), i, plan)
      ensures IsContainer(NewContainer(items, i, plan)) && IsText(Member(NewContainer(items, i, plan), "name"))
    {
      ContainerDecodes(items, i, plan);
    }
  }

  lemma ContainerListDecodes(doc: Json, items: seq<Json>)
    requires WellTyped(doc) && AreContainers(items)
    ensures WellTyped(WithContainers(doc, items))
    ensures PodOf(WithContainers(doc, items)) == PodOf(doc).(containers := ContainersOf(items))
  {
    assert ContainerItems(WithContainers(doc, items)) == items;
  }

  lemma ContainerItemsWellTyped(doc: Json)
    requires WellTyped(doc)
    ensures AreContainers(ContainerItems(doc))
  {
    var list := Member(Member(doc, "spec"), "containers");
    forall i | 0 <= i < |ContainerItems(doc)| ensures IsText(Member(ContainerItems(doc)[i], "name")) {
      assert ContainerItems(doc)[i] == list.elems[i];
    }
  }

  /** The containers of the transformed document decode as intended. */
  lemma ContainersDecode(doc: Json, plan: Plan)
    requires WellTyped(doc)
    ensures var doc1 := WithContainers(doc, NewContainers(ContainerItems(doc), plan));
            && WellTyped(doc1)
            && PodOf(doc1) == PodOf(doc).(containers := ContainersAfter(PodOf(doc).containers, plan))
  {
    ContainerItemsWellTyped(doc);
    NewContainersDecode(ContainerItems(doc), plan);
    ContainerListDecodes(doc, NewContainers(ContainerItems(doc), plan));
  }

  lemma VolumeDecodes(doc: Json, pod: Pod, list: seq<HugepageResource>)
    requires WellTyped(doc) && PodOf(doc).volumes == pod.volumes
    ensures var doc1 := Put(doc, "spec", WithVolume(Member(doc, "spec"), pod, list));
            Member(doc, "spec").Obj? ==>
              && WellTyped(doc1)
              && PodOf(doc1) == PodOf(doc).(volumes := WithName(pod.volumes, POD_NET_INFO))
  {
    var spec := Member(doc, "spec");
    var doc1 := Put(doc, "spec", WithVolume(spec, pod, list));
    NamesAppended(Member(spec, "volumes"), VolumeJson(VolumeItems(pod, list)));
    if spec.Obj? { assert ContainerItems(doc1) == ContainerItems(doc); }
  }

  lemma AnnotationsDecode(doc: Json, pod: Pod, injected: map<string, string>)
    requires WellTyped(doc) && PodOf(doc).annotations == pod.annotations
    ensures WellTyped(WithAnnotations(doc, pod, injected))
    ensures PodOf(WithAnnotations(doc, pod, injected)) == PodOf(doc).(annotations := MergedAnnotations(pod, injected))
  {
    StringsWritten(MergedAnnotations(pod, injected));
    assert MergedAnnotations(pod, map[]) == pod.annotations;
    assert ContainerItems(WithAnnotations(doc, pod, injected)) == ContainerItems(doc);
  }

  /** Decoding the transformed document gives the transformed pod. */
  lemma TransformDecodes(doc: Json, plan: Plan, list: seq<HugepageResource>)
    requires WellTyped(doc)
    ensures WellTyped(Transform(doc, plan, list))
    ensures PodOf(Transform(doc, plan, list)) == PodAfter(PodOf(doc), plan)
  {
    var pod := PodOf(doc);
    if plan.counts == map[] {
      NodeSelectorDecodes(doc, pod, plan.desired);
    } else {
      ContainersDecode(doc, plan);
      var doc1 := WithContainers(doc, NewContainers(ContainerItems(doc), plan));
      VolumeDecodes(doc1, pod, list);
      var doc2 := Put(doc1, "spec", WithVolume(Member(doc1, "spec"), pod, list));
      assert doc2 == Put(doc, "spec", WithVolume(Member(doc1, "spec"), pod, list));
      AnnotationsDecode(doc2, pod, plan.injected);
      NodeSelectorDecodes(WithAnnotations(doc2, pod, plan.injected), pod, plan.desired);
    }
  }

  lemma NodeSelectorDecodes(doc: Json, pod: Pod, desired: map<string, string>)
    requires WellTyped(doc) && PodOf(doc).nodeSelector == pod.nodeSelector
    ensures WellTyped(WithNodeSelector(doc, pod, desired))
    ensures PodOf(WithNodeSelector(doc, pod, desired)) == PodOf(doc).(nodeSelector := pod.nodeSelector + desired)
  {
    StringsWritten(pod.nodeSelector + desired);
    var result := WithNodeSelector(doc, pod, desired);
    assert ContainerItems(result) == ContainerItems(doc);
  }

  // ---------- everything else stays ----------

  /** Two objects that differ at most in the listed members. */
  ghost predicate SameBut(a: Json, b: Json, changed: set<string>) {
    forall key {:trigger Member(b, key)} :: key !in changed ==> Member(b, key) == Member(a, key) && (key in Fields(b) <==> key in Fields(a))
  }

  /** A list that still starts with what it held. */
  predicate Extends(a: Json, b: Json) {
    b == a || (b.Arr? && Items(a) <= b.elems && |b.elems| == |Items(a)| + 1)
  }

  /** Only the first container's requests and limits move; env and mounts keep what they held, in place. */
  ghost predicate ContainerKept(before: Json, after: Json, first: bool) {
    && SameBut(before, after, if first then {"resources", "env", "volumeMounts"} else {"env", "volumeMounts"})
    && SameBut(Member(before, "resources"), Member(after, "resources"), {"requests", "limits"})
    && Extends(Member(before, "env"), Member(after, "env"))
    && Extends(Member(before, "volumeMounts"), Member(after, "volumeMounts"))
  }

  ghost predicate SpecKept(before: Json, after: Json) {
    && SameBut(before, after, {"containers", "volumes", "nodeSelector"})
    && Extends(Member(before, "volumes"), Member(after, "volumes"))
  }

  ghost predicate DocumentKept(before: Json, after: Json) {
    && SameBut(before, after, {"spec", "metadata"})
    && SameBut(Member(before, "metadata"), Member(after, "metadata"), {"annotations"})
    && SpecKept(Member(before, "spec"), Member(after, "spec"))
  }

  lemma PutRest(j: Json, key: string, value: Json)
    ensures SameBut(j, Put(j, key, value), {key}) && Member(Put(j, key, value), key) == value
  {
  }

  lemma SameButChains(a: Json, b: Json, c: Json, changed: set<string>, more: set<string>, all: set<string>)
    requires SameBut(a, b, changed) && SameBut(b, c, more) && changed + more <= all
    ensures SameBut(a, c, all)
  {
    forall key | key !in all ensures Member(c, key) == Member(a, key) && (key in Fields(c) <==> key in Fields(a)) {
      assert Member(b, key) == Member(a, key);
    }
  }

  lemma AppendedRest(j: Json, key: string, item: Json)
    ensures SameBut(j, Appended(j, key, item), {key}) && Extends(Member(j, key), Member(Appended(j, key, item), key))
  {
    PutRest(j, key, Arr(Items(Member(j, key)) + [item]));
  }

  lemma EnvRest(c: Json, plan: Plan)
    ensures SameBut(c, WithEnv(c, plan), {"env"}) && Extends(Member(c, "env"), Member(WithEnv(c, plan), "env"))
  {
    AppendedRest(c, "env", EnvJson(CONTAINER_NAME, ContainerOf(c).name));
  }

  lemma MountRest(c: Json)
    ensures SameBut(c, WithMount(c), {"volumeMounts"})
    ensures Extends(Member(c, "volumeMounts"), Member(WithMount(c), "volumeMounts"))
  {
    AppendedRest(c, "volumeMounts", MOUNT_JSON);
  }

  lemma ResourcesRest(c: Json, containers: seq<Container>, plan: Plan)
    requires containers != []
    ensures var after := WithResources(c, containers, plan);
            SameBut(c, after, {"resources"}) && SameBut(Member(c, "resources"), Member(after, "resources"), {"requests", "limits"})
  {
    var old_ := Member(c, "resources");
    var requests := Obj(Fields(Member(old_, "requests")) + NumberFields(NewRequests(containers, plan)));
    var limits := Obj(Fields(Member(old_, "limits")) + NumberFields(NewLimits(containers, plan)));
    PutRest(old_, "requests", requests);
    PutRest(Put(old_, "requests", requests), "limits", limits);
    SameButChains(old_, Put(old_, "requests", requests), NewResources(old_, containers, plan),
                  {"requests"}, {"limits"}, {"requests", "limits"});
    PutRest(c, "resources", NewResources(old_, containers, plan));
  }

  lemma ContainerRest(items: seq<Json>, i: nat, plan: Plan)
    requires i < |items|
    ensures ContainerKept(items[i], NewContainer(items, i, plan), i == 0)
  {
    var c := items[i];
    var c1 := WithEnv(c, plan);
    var c2 := WithMount(c1);
    EnvRest(c, plan);
    MountRest(c1);
    SameButChains(c, c1, c2, {"env"}, {"volumeMounts"}, {"env", "volumeMounts"});
    assert Member(c1, "volumeMounts") == Member(c, "volumeMounts") && Member(c2, "env") == Member(c1, "env");
    assert Member(c2, "resources") == Member(c, "resources");
    if i == 0 {
      var c3 := WithResources(c2, ContainersOf(items), plan);
      ResourcesRest(c2, ContainersOf(items), plan);
      SameButChains(c, c2, c3, {"env", "volumeMounts"}, {"resources"}, {"resources", "env", "volumeMounts"});
      assert Member(c3, "volumeMounts") == Member(c2, "volumeMounts") && Member(c3, "env") == Member(c2, "env");
    }
  }

  lemma SpecRest(spec: Json, items: seq<Json>, pod: Pod, list: seq<HugepageResource>)
    ensures var after := WithVolume(Put(spec, "containers", Arr(items)), pod, list);
            SpecKept(spec, after) && Member(after, "containers") == Arr(items)
  {
    var spec1 := Put(spec, "containers", Arr(items));
    PutRest(spec, "containers", Arr(items));
    var item := VolumeJson(VolumeItems(pod, list));
    AppendedRest(spec1, "volumes", item);
    assert Member(spec1, "volumes") == Member(spec, "volumes");
    SameButChains(spec, spec1, Appended(spec1, "volumes", item), {"containers"}, {"volumes"}, {"containers", "volumes", "nodeSelector"});
    assert Member(Appended(spec1, "volumes", item), "containers") == Member(spec1, "containers");
  }

  lemma AnnotationsRest(doc: Json, pod: Pod, injected: map<string, string>)
    ensures var after := WithAnnotations(doc, pod, injected);
            && SameBut(doc, after, {"metadata"})
            && SameBut(Member(doc, "metadata"), Member(after, "metadata"), {"annotations"})
  {
    var annotations := Obj(StringFields(MergedAnnotations(pod, injected)));
    PutRest(Member(doc, "metadata"), "annotations", annotations);
    PutRest(doc, "metadata", Put(Member(doc, "metadata"), "annotations", annotations));
  }

  lemma NodeSelectorRest(doc: Json, pod: Pod, desired: map<string, string>)
    ensures var after := WithNodeSelector(doc, pod, desired);
            && SameBut(doc, after, {"spec"})
            && SameBut(Member(doc, "spec"), Member(after, "spec"), {"nodeSelector"})
  {
    var selector := Obj(StringFields(pod.nodeSelector + desired));
    PutRest(Member(doc, "spec"), "nodeSelector", selector);
    PutRest(doc, "spec", Put(Member(doc, "spec"), "nodeSelector", selector));
  }

  lemma SelectorKeepsSpec(spec: Json, spec1: Json, after: Json)
    requires SpecKept(spec, spec1) && SameBut(spec1, after, {"nodeSelector"})
    ensures SpecKept(spec, after) && Member(after, "containers") == Member(spec1, "containers")
  {
    SameButChains(spec, spec1, after, {"containers", "volumes", "nodeSelector"}, {"nodeSelector"}, {"containers", "volumes", "nodeSelector"});
    assert Member(after, "volumes") == Member(spec1, "volumes");
  }

  lemma FinishedRest(doc: Json, items: seq<Json>, pod: Pod, plan: Plan, list: seq<HugepageResource>)
    ensures var after := Finished(doc, items, pod, plan, list);
            DocumentKept(doc, after) && ContainerItems(after) == items
  {
    var spec := WithVolume(Put(Member(doc, "spec"), "containers", Arr(items)), pod, list);
    var doc1 := Put(doc, "spec", spec);
    var doc2 := WithAnnotations(doc1, pod, plan.injected);
    var doc3 := WithNodeSelector(doc2, pod, plan.desired);
    SpecRest(Member(doc, "spec"), items, pod, list);
    PutRest(doc, "spec", spec);
    AnnotationsRest(doc1, pod, plan.injected);
    NodeSelectorRest(doc2, pod, plan.desired);
    assert Member(doc2, "spec") == spec && Member(doc1, "metadata") == Member(doc, "metadata");
    assert Member(doc3, "metadata") == Member(doc2, "metadata");
    SameButChains(doc, doc1, doc2, {"spec"}, {"metadata"}, {"spec", "metadata"});
    SameButChains(doc, doc2, doc3, {"spec", "metadata"}, {"spec"}, {"spec", "metadata"});
    SelectorKeepsSpec(Member(doc, "spec"), spec, Member(doc3, "spec"));
  }

  lemma SelectorAloneRest(doc: Json, pod: Pod, desired: map<string, string>)
    ensures var after := WithNodeSelector(doc, pod, desired);
            DocumentKept(doc, after) && ContainerItems(after) == ContainerItems(doc)
  {
    var after := WithNodeSelector(doc, pod, desired);
    NodeSelectorRest(doc, pod, desired);
    assert Member(after, "metadata") == Member(doc, "metadata");
    SameButChains(doc, doc, after, {}, {"spec"}, {"spec", "metadata"});
    SelectorKeepsSpec(Member(doc, "spec"), Member(doc, "spec"), Member(after, "spec"));
  }

  /**
   The transform touches only the resources of container 0, the env, mounts and volumes it
   appends to, the annotations and the node selector; lists keep what they held, in place.
   */
  lemma RestUntouched(doc: Json, plan: Plan, list: seq<HugepageResource>)
    ensures var after := Transform(doc, plan, list);
            var items, news := ContainerItems(doc), ContainerItems(after);
            && DocumentKept(doc, after)
            && |news| == |items|
            && forall i :: 0 <= i < |items| ==> ContainerKept(items[i], news[i], i == 0)
  {
    var items := ContainerItems(doc);
    if plan.counts == map[] {
      SelectorAloneRest(doc, PodOf(doc), plan.desired);
    } else {
      FinishedRest(doc, NewContainers(items, plan), PodOf(doc), plan, list);
      forall i | 0 <= i < |items| ensures ContainerKept(items[i], NewContainers(items, plan)[i], i == 0) {
        ContainerRest(items, i, plan);
      }
    }
  }
}
