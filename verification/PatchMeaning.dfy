/**
 Applying the planned edits one after another, as RFC 6902 prescribes, yields the declarative
 transform; it fails exactly when a parent location is missing from the document.
 */
module PatchMeaning {
  import opened Wrappers
  import opened Text
  import opened JsonPatch
  import opened Orders
  import opened PodView
  import opened Hugepages
  import opened PatchPlan
  import opened PodTransform

  predicate HasContainerList(doc: Json) {
    doc.Obj? && Member(doc, "spec").Obj? && Member(Member(doc, "spec"), "containers").Arr?
  }

  // ---------- edits inside one container ----------

  lemma AddMember(j: Json, key: string, value: Json)
    requires j.Obj?
    ensures AddAt(j, [key], value) == Some(Put(j, key, value))
  {
  }

  lemma AddBelow(j: Json, key: string, rest: string, value: Json)
    requires j.Obj?
    ensures AddAt(j, [key, rest], value) ==
            if key in j.fields && AddAt(j.fields[key], [rest], value).Some?
            then Some(Put(j, key, AddAt(j.fields[key], [rest], value).value)) else None
  {
    assert [key, rest][1..] == [rest];
  }

  lemma RunOne(doc: Json, e: Edit)
    ensures Run(doc, [e]) == AddAt(doc, e.path, e.value)
  {
    assert [e][1..] == [];
  }

  /** Creating a list when it is missing and appending to it, as done for mounts and volumes. */
  lemma AppendRuns(j: Json, key: string, item: Json)
    requires j.Obj? && (Member(j, key).Null? || Member(j, key).Arr?)
    ensures var create := if Items(Member(j, key)) == [] then [Edit([key], Arr([]))] else [];
            Run(j, create + [Edit([key, "-"], item)]) == Some(Appended(j, key, item))
  {
    var create := if Items(Member(j, key)) == [] then [Edit([key], Arr([]))] else [];
    var last := Edit([key, "-"], item);
    RunConcat(j, create, [last]);
    var j1 := if create == [] then j else Put(j, key, Arr([]));
    if create != [] {
      RunOne(j, create[0]);
      AddMember(j, key, Arr([]));
    }
    assert Run(j, create) == Some(j1);
    RunOne(j1, last);
    AddBelow(j1, key, "-", item);
    var items := Items(Member(j, key));
    assert Member(j1, key) == Arr(items);
    assert Put(j1, key, Arr(items + [item])) == Put(j, key, Arr(items + [item]));
  }

  lemma MountRuns(c: Json, view: Container)
    requires c.Obj? && IsNamedList(Member(c, "volumeMounts")) && Names(Member(c, "volumeMounts")) == view.volumeMounts
    ensures Run(c, MountEdits(view)) ==
            Some(if POD_NET_INFO !in view.volumeMounts then Appended(c, "volumeMounts", MOUNT_JSON) else c)
  {
    assert |Items(Member(c, "volumeMounts"))| == |view.volumeMounts|;
    AppendRuns(c, "volumeMounts", MOUNT_JSON);
  }

  lemma EnvRuns(c: Json, view: Container)
    requires c.Obj? && IsNamedList(Member(c, "env")) && Names(Member(c, "env")) == view.env
    ensures Run(c, EnvEdits(view)) ==
            Some(if HasHugepages(view) && CONTAINER_NAME !in view.env
                 then Appended(c, "env", EnvJson(CONTAINER_NAME, view.name)) else c)
  {
    assert |Items(Member(c, "env"))| == |view.env|;
    var item := EnvJson(CONTAINER_NAME, view.name);
    if view.env == [] {
      RunOne(c, Edit(["env"], Arr([item])));
      AddMember(c, "env", Arr([item]));
      assert Items(Member(c, "env")) + [item] == [item];
    } else {
      RunOne(c, Edit(["env", "-"], item));
      AddBelow(c, "env", "-", item);
    }
  }

  // ---------- the resources of container 0 ----------

  function ResourceObject(rest: Json, requests: map<string, Json>, limits: map<string, Json>): Json {
    Put(Put(rest, "requests", Obj(requests)), "limits", Obj(limits))
  }

  function Listed(quantities: map<string, real>, order: seq<string>): map<string, Json> {
    map name | name in order && name in quantities :: Num(quantities[name])
  }

  lemma EmptyRuns(resources: Json, key: string, quantities: map<string, real>)
    requires resources.Obj? && IsQuantities(Member(resources, key)) && Quantities(Member(resources, key)) == quantities
    ensures Run(resources, EmptyEdits(quantities, key)) == Some(Put(resources, key, Obj(Fields(Member(resources, key)))))
  {
    var present := Member(resources, key);
    if quantities == map[] {
      assert Fields(present).Keys == Quantities(present).Keys;
      RunOne(resources, Edit([key], Obj(map[])));
      AddMember(resources, key, Obj(map[]));
    } else {
      assert present.Obj?;
      assert Put(resources, key, Obj(Fields(present))) == resources;
    }
  }

  lemma AddQuantity(rest: Json, requests: map<string, Json>, limits: map<string, Json>, name: string, value: Json)
    ensures AddAt(ResourceObject(rest, requests, limits), ["requests", name], value) ==
            Some(ResourceObject(rest, requests[name := value], limits))
    ensures AddAt(ResourceObject(rest, requests, limits), ["limits", name], value) ==
            Some(ResourceObject(rest, requests, limits[name := value]))
  {
    var j := ResourceObject(rest, requests, limits);
    AddBelow(j, "requests", name, value);
    AddMember(Obj(requests), name, value);
    assert Put(j, "requests", Obj(requests[name := value])) == ResourceObject(rest, requests[name := value], limits);
    AddBelow(j, "limits", name, value);
    AddMember(Obj(limits), name, value);
    assert Put(j, "limits", Obj(limits[name := value])) == ResourceObject(rest, requests, limits[name := value]);
  }

  lemma AddPair(rest: Json, requests: map<string, Json>, limits: map<string, Json>, name: string, v: Json, w: Json)
    ensures Run(ResourceObject(rest, requests, limits), [Edit(["requests", name], v), Edit(["limits", name], w)]) ==
            Some(ResourceObject(rest, requests[name := v], limits[name := w]))
  {
    var e1, e2 := Edit(["requests", name], v), Edit(["limits", name], w);
    assert [e1, e2][1..] == [e2];
    AddQuantity(rest, requests, limits, name, v);
    AddQuantity(rest, requests[name := v], limits, name, w);
    RunOne(ResourceObject(rest, requests[name := v], limits), e2);
  }

  lemma {:induction false} QuantitiesRun(rest: Json, oldRequests: map<string, Json>, oldLimits: map<string, Json>,
                                         requests: map<string, real>, limits: map<string, real>, order: seq<string>)
    requires forall i :: 0 <= i < |order| ==> order[i] in requests && order[i] in limits
    ensures Run(ResourceObject(rest, oldRequests, oldLimits), QuantityEdits(requests, limits, order)) ==
            Some(ResourceObject(rest, oldRequests + Listed(requests, order), oldLimits + Listed(limits, order)))
  {
    var start := ResourceObject(rest, oldRequests, oldLimits);
    if order == [] {
      assert oldRequests + Listed(requests, order) == oldRequests;
      assert oldLimits + Listed(limits, order) == oldLimits;
    } else {
      var n := |order| - 1;
      var name := order[n];
      var pair := [Edit(["requests", name], Num(requests[name])), Edit(["limits", name], Num(limits[name]))];
      QuantitiesRun(rest, oldRequests, oldLimits, requests, limits, order[..n]);
      RunConcat(start, QuantityEdits(requests, limits, order[..n]), pair);
      var r, l := oldRequests + Listed(requests, order[..n]), oldLimits + Listed(limits, order[..n]);
      AddPair(rest, r, l, name, Num(requests[name]), Num(limits[name]));
      ListedSnoc(requests, order);
      ListedSnoc(limits, order);
      SumUpdate(oldRequests, Listed(requests, order[..n]), name, Num(requests[name]));
      SumUpdate(oldLimits, Listed(limits, order[..n]), name, Num(limits[name]));
    }
  }

  lemma SumUpdate(a: map<string, Json>, b: map<string, Json>, key: string, value: Json)
    ensures a + b[key := value] == (a + b)[key := value]
  {
  }

  lemma ListedSnoc(quantities: map<string, real>, order: seq<string>)
    requires order != [] && order[|order| - 1] in quantities
    ensures var n := |order| - 1;
            Listed(quantities, order) == Listed(quantities, order[..n])[order[n] := Num(quantities[order[n]])]
  {
    var n := |order| - 1;
    assert order == order[..n] + [order[n]];
  }

  lemma ResourcesRun(resources: Json, containers: seq<Container>, plan: Plan, order: seq<string>)
    requires containers != [] && resources.Obj?
    requires Enumerates(order, WrittenResources(containers, plan))
    requires IsQuantities(Member(resources, "requests")) && IsQuantities(Member(resources, "limits"))
    requires Quantities(Member(resources, "requests")) == containers[0].requests
    requires Quantities(Member(resources, "limits")) == containers[0].limits
    ensures Run(resources, ResourceEdits(containers, plan, order)) == Some(NewResources(resources, containers, plan))
  {
    var c := containers[0];
    var requests, limits := NewRequests(containers, plan), NewLimits(containers, plan);
    var oldRequests, oldLimits := Fields(Member(resources, "requests")), Fields(Member(resources, "limits"));
    RunConcat(resources, EmptyEdits(c.requests, "requests") + EmptyEdits(c.limits, "limits"), QuantityEdits(requests, limits, order));
    ParentsRun(resources, c.requests, c.limits);
    QuantitiesRun(resources, oldRequests, oldLimits, requests, limits, order);
    AllListed(requests, order);
    AllListed(limits, order);
  }

  lemma AllListed(quantities: map<string, real>, order: seq<string>)
    requires Enumerates(order, quantities.Keys)
    ensures Listed(quantities, order) == NumberFields(quantities)
  {
  }

  lemma ParentsRun(resources: Json, requests: map<string, real>, limits: map<string, real>)
    requires resources.Obj?
    requires IsQuantities(Member(resources, "requests")) && Quantities(Member(resources, "requests")) == requests
    requires IsQuantities(Member(resources, "limits")) && Quantities(Member(resources, "limits")) == limits
    ensures Run(resources, EmptyEdits(requests, "requests") + EmptyEdits(limits, "limits")) ==
            Some(ResourceObject(resources, Fields(Member(resources, "requests")), Fields(Member(resources, "limits"))))
  {
    RunConcat(resources, EmptyEdits(requests, "requests"), EmptyEdits(limits, "limits"));
    EmptyRuns(resources, "requests", requests);
    var r1 := Put(resources, "requests", Obj(Fields(Member(resources, "requests"))));
    assert Member(r1, "limits") == Member(resources, "limits");
    EmptyRuns(r1, "limits", limits);
  }

  lemma ResourcesRunInContainer(c: Json, containers: seq<Container>, plan: Plan, order: seq<string>)
    requires containers != [] && IsContainer(c) && ContainerOf(c) == containers[0]
    requires Enumerates(order, WrittenResources(containers, plan))
    ensures Run(c, Under("resources", ResourceEdits(containers, plan, order))) ==
            if Member(c, "resources").Obj? then Some(WithResources(c, containers, plan)) else None
  {
    var resources := Member(c, "resources");
    var edits := ResourceEdits(containers, plan, order);
    if resources.Obj? {
      RunUnderMember(c.fields, "resources", edits);
      ResourcesRun(resources, containers, plan, order);
    } else {
      assert Quantities(Member(resources, "requests")) == map[];
      assert edits[0] == Edit(["requests"], Obj(map[]));
      var under := Under("resources", edits);
      assert under[0].path == ["resources", "requests"];
      AddBelow(c, "resources", "requests", under[0].value);
    }
  }

  // ---------- lifting to the document ----------

  lemma AtContainerRuns(doc: Json, i: nat, edits: seq<Edit>)
    requires HasContainerList(doc) && i < |ContainerItems(doc)|
    requires forall e :: e in edits ==> e.path != []
    ensures var items := ContainerItems(doc);
            Run(doc, AtContainer(i, edits)) ==
            match Run(items[i], edits)
            case Some(c) => Some(WithContainers(doc, items[i := c]))
            case None => None
  {
    var spec := Member(doc, "spec");
    RunUnderElement(ContainerItems(doc), i, edits);
    RunUnderMember(spec.fields, "containers", Under(Itoa(i), edits));
    RunUnderMember(doc.fields, "spec", Under("containers", Under(Itoa(i), edits)));
  }

  lemma SpliceStep(outs: seq<Json>, items: seq<Json>, n: nat)
    requires n < |outs| == |items|
    ensures (outs[..n] + items[n..])[n := outs[n]] == outs[..n + 1] + items[n + 1..]
  {
  }

  lemma {:induction false} ForEachContainerRuns(doc: Json, parts: seq<seq<Edit>>, outs: seq<Json>)
    requires HasContainerList(doc) && |parts| <= |ContainerItems(doc)| == |outs|
    requires forall i, e :: 0 <= i < |parts| && e in parts[i] ==> e.path != []
    requires forall i :: 0 <= i < |parts| ==> Run(ContainerItems(doc)[i], parts[i]) == Some(outs[i])
    ensures Run(doc, ForEachContainer(parts)) ==
            Some(WithContainers(doc, outs[..|parts|] + ContainerItems(doc)[|parts|..]))
    decreases |parts|
  {
    var items := ContainerItems(doc);
    if parts == [] {
      assert outs[..0] + items[0..] == items;
      SameContainers(doc);
    } else {
      var n := |parts| - 1;
      ForEachContainerRuns(doc, parts[..n], outs);
      var mid := outs[..n] + items[n..];
      var doc1 := WithContainers(doc, mid);
      RunConcat(doc, ForEachContainer(parts[..n]), AtContainer(n, parts[n]));
      assert ContainerItems(doc1) == mid && mid[n] == items[n];
      AtContainerRuns(doc1, n, parts[n]);
      SpliceStep(outs, items, n);
      SetContainersTwice(doc, mid, mid[n := outs[n]]);
    }
  }

  /** Per-container edits on given containers, as a step from one list of containers to the next. */
  lemma ContainersRun(doc: Json, from: seq<Json>, parts: seq<seq<Edit>>, outs: seq<Json>)
    requires HasContainerList(doc) && |parts| == |from| == |outs|
    requires forall i, e :: 0 <= i < |parts| && e in parts[i] ==> e.path != []
    requires forall i :: 0 <= i < |parts| ==> Run(from[i], parts[i]) == Some(outs[i])
    ensures Run(WithContainers(doc, from), ForEachContainer(parts)) == Some(WithContainers(doc, outs))
  {
    var doc1 := WithContainers(doc, from);
    assert ContainerItems(doc1) == from;
    ForEachContainerRuns(doc1, parts, outs);
    assert outs[..|parts|] + from[|parts|..] == outs;
    SetContainersTwice(doc, from, outs);
  }

  lemma SameContainers(doc: Json)
    requires HasContainerList(doc)
    ensures WithContainers(doc, ContainerItems(doc)) == doc
  {
    var spec := Member(doc, "spec");
    assert Put(spec, "containers", Arr(ContainerItems(doc))).fields == spec.fields;
    assert Put(doc, "spec", spec).fields == doc.fields;
  }

  lemma SetContainersTwice(doc: Json, a: seq<Json>, b: seq<Json>)
    ensures WithContainers(WithContainers(doc, a), b) == WithContainers(doc, b)
  {
    var spec := Member(doc, "spec");
    assert Put(Put(spec, "containers", Arr(a)), "containers", Arr(b)) == Put(spec, "containers", Arr(b));
    assert Put(Put(doc, "spec", Put(spec, "containers", Arr(a))), "spec", Put(spec, "containers", Arr(b))) ==
           Put(doc, "spec", Put(spec, "containers", Arr(b)));
  }

  // ---------- the segments of the patch ----------

  function AfterResources(items: seq<Json>, plan: Plan): seq<Json>
    requires items != []
  {
    items[0 := WithResources(items[0], ContainersOf(items), plan)]
  }

  function AfterEnv(items: seq<Json>, plan: Plan): seq<Json>
    requires items != []
  {
    var from := AfterResources(items, plan);
    seq(|items|, i requires 0 <= i < |items| =>
      var view := ContainerOf(items[i]);
      if plan.hugepages && HasHugepages(view) && CONTAINER_NAME !in view.env
      then Appended(from[i], "env", EnvJson(CONTAINER_NAME, view.name)) else from[i])
  }

  lemma AppendedCommutes(j: Json, key: string, item: Json, other: string, value: Json)
    requires key != other
    ensures Appended(Put(j, other, value), key, item) == Put(Appended(j, key, item), other, value)
  {
    assert Member(Put(j, other, value), key) == Member(j, key);
    assert Appended(Put(j, other, value), key, item).fields == Put(Appended(j, key, item), other, value).fields;
  }

  /** Resources, then environment, then mounts: together the new containers. */
  lemma ContainerStepsMeet(items: seq<Json>, plan: Plan, i: nat)
    requires i < |items|
    ensures var c := AfterEnv(items, plan)[i];
            NewContainer(items, i, plan) ==
            if POD_NET_INFO !in ContainerOf(items[i]).volumeMounts then Appended(c, "volumeMounts", MOUNT_JSON) else c
  {
    var c := items[i];
    assert Member(WithEnv(c, plan), "volumeMounts") == Member(c, "volumeMounts");
    assert ContainerOf(WithEnv(c, plan)).volumeMounts == ContainerOf(c).volumeMounts;
    if i == 0 {
      var resources := NewResources(Member(c, "resources"), ContainersOf(items), plan);
      assert Member(WithMount(WithEnv(c, plan)), "resources") == Member(c, "resources");
      AppendedCommutes(c, "env", EnvJson(CONTAINER_NAME, ContainerOf(c).name), "resources", resources);
      AppendedCommutes(WithEnv(c, plan), "volumeMounts", MOUNT_JSON, "resources", resources);
      assert AfterEnv(items, plan)[0] == Put(WithEnv(c, plan), "resources", resources);
    }
  }

  lemma ResourceSegmentRuns(doc: Json, plan: Plan, order: seq<string>)
    requires WellTyped(doc) && ContainerItems(doc) != []
    requires Enumerates(order, WrittenResources(PodOf(doc).containers, plan))
    ensures var items := ContainerItems(doc);
            Run(doc, AtContainer(0, Under("resources", ResourceEdits(PodOf(doc).containers, plan, order)))) ==
            if Member(items[0], "resources").Obj? then Some(WithContainers(doc, AfterResources(items, plan))) else None
  {
    var items := ContainerItems(doc);
    var edits := Under("resources", ResourceEdits(PodOf(doc).containers, plan, order));
    ResourcesRunInContainer(items[0], PodOf(doc).containers, plan, order);
    AtContainerRuns(doc, 0, edits);
  }

  lemma EnvStepRuns(items: seq<Json>, plan: Plan, i: nat)
    requires i < |items| && IsContainer(items[i]) && plan.hugepages
    ensures Run(AfterResources(items, plan)[i], EnvEdits(ContainerOf(items[i]))) == Some(AfterEnv(items, plan)[i])
  {
    var from := AfterResources(items, plan)[i];
    assert Member(from, "env") == Member(items[i], "env");
    EnvRuns(from, ContainerOf(items[i]));
  }

  lemma EnvStepsRun(items: seq<Json>, plan: Plan)
    requires items != [] && plan.hugepages && forall i :: 0 <= i < |items| ==> IsContainer(items[i])
    ensures forall i :: 0 <= i < |items| ==>
              Run(AfterResources(items, plan)[i], EnvParts(ContainersOf(items))[i]) == Some(AfterEnv(items, plan)[i])
  {
    forall i | 0 <= i < |items|
      ensures Run(AfterResources(items, plan)[i], EnvParts(ContainersOf(items))[i]) == Some(AfterEnv(items, plan)[i])
    {
      EnvStepRuns(items, plan, i);
    }
  }

  lemma EnvSegmentRuns(doc: Json, plan: Plan)
    requires WellTyped(doc) && ContainerItems(doc) != [] && HasContainerList(doc)
    ensures var items := ContainerItems(doc);
            Run(WithContainers(doc, AfterResources(items, plan)),
                if plan.hugepages then ForEachContainer(EnvParts(ContainersOf(items))) else []) ==
            Some(WithContainers(doc, AfterEnv(items, plan)))
  {
    var items := ContainerItems(doc);
    if plan.hugepages {
      EnvStepsRun(items, plan);
      ContainersRun(doc, AfterResources(items, plan), EnvParts(ContainersOf(items)), AfterEnv(items, plan));
    } else {
      assert AfterEnv(items, plan) == AfterResources(items, plan);
    }
  }

  lemma MountStepRuns(items: seq<Json>, plan: Plan, i: nat)
    requires i < |items| && IsContainer(items[i])
    ensures Run(AfterEnv(items, plan)[i], MountEdits(ContainerOf(items[i]))) == Some(NewContainers(items, plan)[i])
  {
    var from := AfterEnv(items, plan)[i];
    assert Member(from, "volumeMounts") == Member(items[i], "volumeMounts");
    MountRuns(from, ContainerOf(items[i]));
    ContainerStepsMeet(items, plan, i);
  }

  lemma MountSegmentRuns(doc: Json, plan: Plan)
    requires WellTyped(doc) && ContainerItems(doc) != [] && HasContainerList(doc)
    ensures var items := ContainerItems(doc);
            Run(WithContainers(doc, AfterEnv(items, plan)), ForEachContainer(MountParts(ContainersOf(items)))) ==
            Some(WithContainers(doc, NewContainers(items, plan)))
  {
    var items := ContainerItems(doc);
    forall i | 0 <= i < |items|
      ensures Run(AfterEnv(items, plan)[i], MountParts(ContainersOf(items))[i]) == Some(NewContainers(items, plan)[i])
    {
      MountStepRuns(items, plan, i);
    }
    ContainersRun(doc, AfterEnv(items, plan), MountParts(ContainersOf(items)), NewContainers(items, plan));
  }

  lemma VolumeSegmentRuns(doc: Json, pod: Pod, list: seq<HugepageResource>)
    requires doc.Obj? && Member(doc, "spec").Obj?
    requires IsNamedList(Member(Member(doc, "spec"), "volumes")) && Names(Member(Member(doc, "spec"), "volumes")) == pod.volumes
    ensures Run(doc, Under("spec", VolumeEdits(pod, list))) == Some(Put(doc, "spec", WithVolume(Member(doc, "spec"), pod, list)))
  {
    var spec := Member(doc, "spec");
    assert |Items(Member(spec, "volumes"))| == |pod.volumes|;
    AppendRuns(spec, "volumes", VolumeJson(VolumeItems(pod, list)));
    RunUnderMember(doc.fields, "spec", VolumeEdits(pod, list));
  }

  lemma AnnotationSegmentRuns(doc: Json, pod: Pod, injected: map<string, string>)
    requires doc.Obj? && IsObject(Member(doc, "metadata"))
    ensures Run(doc, AnnotationEdits(pod, injected)) ==
            if injected == map[] || Member(doc, "metadata").Obj? then Some(WithAnnotations(doc, pod, injected)) else None
  {
    if injected != map[] {
      var e := AnnotationEdits(pod, injected)[0];
      RunOne(doc, e);
      AddBelow(doc, "metadata", "annotations", e.value);
    }
  }

  lemma NodeSelectorSegmentRuns(doc: Json, pod: Pod, desired: map<string, string>)
    requires doc.Obj? && IsObject(Member(doc, "spec"))
    ensures Run(doc, NodeSelectorEdits(pod, desired)) ==
            if pod.nodeSelector + desired == map[] || Member(doc, "spec").Obj?
            then Some(WithNodeSelector(doc, pod, desired)) else None
  {
    if pod.nodeSelector + desired != map[] {
      var e := NodeSelectorEdits(pod, desired)[0];
      RunOne(doc, e);
      AddBelow(doc, "spec", "nodeSelector", e.value);
    }
  }

  // ---------- the whole patch ----------

  lemma ContainerSegmentsRun(doc: Json, plan: Plan, order: seq<string>)
    requires WellTyped(doc) && ContainerItems(doc) != []
    requires Enumerates(order, WrittenResources(PodOf(doc).containers, plan))
    ensures Run(doc, ContainerEdits(PodOf(doc).containers, plan, order)) ==
            if Member(ContainerItems(doc)[0], "resources").Obj?
            then Some(WithContainers(doc, NewContainers(ContainerItems(doc), plan))) else None
  {
    var containers := PodOf(doc).containers;
    var s1 := AtContainer(0, Under("resources", ResourceEdits(containers, plan, order)));
    var s2 := if plan.hugepages then ForEachContainer(EnvParts(containers)) else [];
    var s3 := ForEachContainer(MountParts(containers));
    RunConcat(doc, s1 + s2, s3);
    RunConcat(doc, s1, s2);
    ResourceSegmentRuns(doc, plan, order);
    EnvSegmentRuns(doc, plan);
    MountSegmentRuns(doc, plan);
  }

  lemma VolumeStep(doc: Json, items: seq<Json>, pod: Pod, list: seq<HugepageResource>)
    requires doc.Obj? && Member(doc, "spec").Obj?
    requires IsNamedList(Member(Member(doc, "spec"), "volumes")) && Names(Member(Member(doc, "spec"), "volumes")) == pod.volumes
    ensures var spec := WithVolume(Put(Member(doc, "spec"), "containers", Arr(items)), pod, list);
            && Run(WithContainers(doc, items), Under("spec", VolumeEdits(pod, list))) == Some(Put(doc, "spec", spec))
            && Member(Put(doc, "spec", spec), "metadata") == Member(doc, "metadata")
  {
    var doc1 := WithContainers(doc, items);
    var spec1 := Put(Member(doc, "spec"), "containers", Arr(items));
    assert Member(doc1, "spec") == spec1 && Member(spec1, "volumes") == Member(Member(doc, "spec"), "volumes");
    VolumeSegmentRuns(doc1, pod, list);
    assert Put(doc1, "spec", WithVolume(spec1, pod, list)) == Put(doc, "spec", WithVolume(spec1, pod, list));
  }

  lemma LastStep(doc: Json, pod: Pod, plan: Plan)
    requires doc.Obj? && Member(doc, "spec").Obj? && IsObject(Member(doc, "metadata"))
    ensures Run(doc, AnnotationEdits(pod, plan.injected) + NodeSelectorEdits(pod, plan.desired)) ==
            if plan.injected == map[] || Member(doc, "metadata").Obj?
            then Some(WithNodeSelector(WithAnnotations(doc, pod, plan.injected), pod, plan.desired)) else None
  {
    RunConcat(doc, AnnotationEdits(pod, plan.injected), NodeSelectorEdits(pod, plan.desired));
    AnnotationSegmentRuns(doc, pod, plan.injected);
    assert Member(WithAnnotations(doc, pod, plan.injected), "spec") == Member(doc, "spec");
    NodeSelectorSegmentRuns(WithAnnotations(doc, pod, plan.injected), pod, plan.desired);
  }

  /** From the new containers on: volume, annotations, node selector. */
  lemma PodSegmentsRun(doc: Json, items: seq<Json>, pod: Pod, plan: Plan, list: seq<HugepageResource>)
    requires doc.Obj? && Member(doc, "spec").Obj? && IsObject(Member(doc, "metadata"))
    requires IsNamedList(Member(Member(doc, "spec"), "volumes")) && Names(Member(Member(doc, "spec"), "volumes")) == pod.volumes
    ensures Run(WithContainers(doc, items), FinalEdits(pod, plan, list)) ==
            if plan.injected == map[] || Member(doc, "metadata").Obj?
            then Some(Finished(doc, items, pod, plan, list)) else None
  {
    RunConcat(WithContainers(doc, items), Under("spec", VolumeEdits(pod, list)),
              AnnotationEdits(pod, plan.injected) + NodeSelectorEdits(pod, plan.desired));
    VolumeStep(doc, items, pod, list);
    LastStep(Put(doc, "spec", WithVolume(Put(Member(doc, "spec"), "containers", Arr(items)), pod, list)), pod, plan);
  }

  lemma CountedEditsRun(doc: Json, plan: Plan, order: EmissionOrder)
    requires WellTyped(doc) && PodOf(doc).containers != [] && plan.counts != map[]
    requires ValidOrder(PodOf(doc), plan, order)
    ensures var list := ExposedList(PodOf(doc), plan, order);
            Run(doc, PodEdits(PodOf(doc), plan, order)) ==
            if Member(ContainerItems(doc)[0], "resources").Obj? && (plan.injected == map[] || Member(doc, "metadata").Obj?)
            then Some(Finished(doc, NewContainers(ContainerItems(doc), plan), PodOf(doc), plan, list)) else None
  {
    var pod := PodOf(doc);
    var list := ExposedList(pod, plan, order);
    RunConcat(doc, ContainerEdits(pod.containers, plan, order.resources), FinalEdits(pod, plan, list));
    ContainerSegmentsRun(doc, plan, order.resources);
    PodSegmentsRun(doc, NewContainers(ContainerItems(doc), plan), pod, plan, list);
  }

  /**
   The planned patch, run against the pod's own document, succeeds exactly when the parents
   it writes below are there, and then produces the declarative transform.
   */
  lemma EditsMeanTransform(doc: Json, plan: Plan, order: EmissionOrder)
    requires WellTyped(doc)
    requires plan.counts != map[] ==> PodOf(doc).containers != []
    requires ValidOrder(PodOf(doc), plan, order)
    ensures Run(doc, PodEdits(PodOf(doc), plan, order)) ==
            if Applicable(doc, plan) then Some(Transform(doc, plan, ExposedList(PodOf(doc), plan, order))) else None
  {
    if plan.counts == map[] {
      NodeSelectorSegmentRuns(doc, PodOf(doc), plan.desired);
    } else {
      CountedEditsRun(doc, plan, order);
    }
  }
}
