/**
 The webhook's own code: the loops that build the patch, proved to emit the planned edits
 with their paths printed as JSON Pointers, and the handler that drives them.
 */
module Webhook {
  import opened Wrappers
  import opened Text
  import opened Pointer
  import opened JsonPatch
  import opened Orders
  import opened PodView
  import opened Hugepages
  import opened PatchPlan
  import opened Selections
  import opened NadCache
  import opened Networks
  import opened Injections
  import opened Switches
  import opened Requests
  import opened Decision
  import opened PodTransform
  import opened Admission

  // ---------- the paths that are written ----------

  lemma EncodeConcat(a: seq<Edit>, b: seq<Edit>)
    ensures EncodeAll(a + b) == EncodeAll(a) + EncodeAll(b)
  {
  }

  lemma StepEncodes(patch: seq<Op>, before: seq<Op>, done: seq<Edit>, more: seq<Edit>)
    requires before == patch + EncodeAll(done)
    ensures before + EncodeAll(more) == patch + EncodeAll(done + more)
  {
    EncodeConcat(done, more);
  }

  lemma RenderPlain(key: string, rest: seq<string>)
    requires '~' !in key && '/' !in key
    ensures Render([key] + rest) == "/" + key + Render(rest)
  {
    EscapePlain(key);
    assert ([key] + rest)[1..] == rest;
  }

  lemma RenderPlainLast(key: string)
    requires '~' !in key && '/' !in key
    ensures Render([key]) == "/" + key
  {
    RenderPlain(key, []);
    assert [key] + [] == [key];
    assert Render([]) == "";
  }

  lemma RenderPlainPair(key: string, last: string)
    requires '~' !in key && '/' !in key
    ensures Render([key, last]) == "/" + key + "/" + ToSafeJsonPatchKey(last)
  {
    RenderPlain(key, [last]);
    assert [key] + [last] == [key, last];
    assert [last][1..] == [];
  }

  function ContainerPath(i: nat): string {
    "/spec/containers/" + Itoa(i)
  }

  predicate Plain(key: string) {
    '~' !in key && '/' !in key
  }

  lemma ContainersLiteral()
    ensures "/" + "spec" + "/" + "containers" + "/" == "/spec/containers/"
    ensures Plain("spec") && Plain("containers")
  {
  }

  lemma RenderBelowTwo(a: string, b: string, prefix: string, i: nat, rest: seq<string>)
    requires Plain(a) && Plain(b) && prefix == "/" + a + "/" + b + "/"
    ensures Render([a] + ([b] + ([Itoa(i)] + rest))) == prefix + Itoa(i) + Render(rest)
  {
    RenderPlain(a, [b] + ([Itoa(i)] + rest));
    RenderPlain(b, [Itoa(i)] + rest);
    RenderIndex(i, rest);
  }

  lemma ContainerPathRenders(i: nat, rest: seq<string>)
    ensures Render(["spec"] + (["containers"] + ([Itoa(i)] + rest))) == ContainerPath(i) + Render(rest)
  {
    ContainersLiteral();
    RenderBelowTwo("spec", "containers", "/spec/containers/", i, rest);
  }

  lemma RenderIndex(i: nat, rest: seq<string>)
    ensures Render([Itoa(i)] + rest) == "/" + Itoa(i) + Render(rest)
  {
    IndexRoundTrip(i);
    assert ([Itoa(i)] + rest)[1..] == rest;
  }

  /** An edit in a container, as the code prints it. */
  lemma AtContainerEncodes(i: nat, e: Edit)
    ensures EncodeAll(AtContainer(i, [e])) == [Op("add", ContainerPath(i) + Render(e.path), e.value)]
  {
    ContainerPathRenders(i, e.path);
  }

  lemma AtContainerConcat(i: nat, a: seq<Edit>, b: seq<Edit>)
    ensures AtContainer(i, a + b) == AtContainer(i, a) + AtContainer(i, b)
  {
    var ua, ub := Under(Itoa(i), a), Under(Itoa(i), b);
    assert Under(Itoa(i), a + b) == ua + ub;
    assert Under("containers", ua + ub) == Under("containers", ua) + Under("containers", ub);
  }

  lemma ForEachContainerSnoc(parts: seq<seq<Edit>>, i: nat)
    requires i < |parts|
    ensures ForEachContainer(parts[..i + 1]) == ForEachContainer(parts[..i]) + AtContainer(i, parts[i])
  {
    assert parts[..i + 1][..i] == parts[..i];
  }

  lemma RenderBelowMember(member: string, last: string)
    requires Plain(member) && Plain(last)
    ensures Render([member, last]) == "/" + member + "/" + last
  {
    RenderPlainPair(member, last);
    EscapePlain(last);
  }

  /** Printed paths of one, two and three plain keys. */
  lemma PathOfOne(a: string, path: string)
    requires Plain(a) && path == "/" + a
    ensures Render([a]) == path
  {
    RenderPlainLast(a);
  }

  lemma PathOfTwo(a: string, b: string, parent: string, path: string)
    requires Plain(a) && Plain(b) && parent == "/" + a && path == parent + "/" + b
    ensures Render([a, b]) == path
  {
    RenderBelowMember(a, b);
  }

  lemma PathOfThree(a: string, b: string, c: string, parent: string, path: string)
    requires Plain(a) && Plain(b) && Plain(c) && parent == "/" + a + "/" + b && path == parent + "/" + c
    ensures Render([a, b, c]) == path
  {
    RenderBelowTwoMembers(a, b, c);
    EscapePlain(c);
  }

  lemma RenderBelowTwoMembers(a: string, b: string, last: string)
    requires Plain(a) && Plain(b)
    ensures Render([a, b, last]) == "/" + a + "/" + b + "/" + ToSafeJsonPatchKey(last)
  {
    RenderPlain(a, [b, last]);
    assert [a] + [b, last] == [a, b, last];
    RenderPlainPair(b, last);
  }

  // ---------- resources ----------

  /** Edits below the resources of container 0. */
  function InResources(edits: seq<Edit>): seq<Edit> {
    AtContainer(0, Under("resources", edits))
  }

  lemma InResourcesConcat(a: seq<Edit>, b: seq<Edit>)
    ensures EncodeAll(InResources(a + b)) == EncodeAll(InResources(a)) + EncodeAll(InResources(b))
  {
    assert Under("resources", a + b) == Under("resources", a) + Under("resources", b);
    AtContainerConcat(0, Under("resources", a), Under("resources", b));
    EncodeConcat(InResources(a), InResources(b));
  }

  method PatchEmptyResources(patch: seq<Op>, containerIndex: nat, key: string) returns (result: seq<Op>)
    ensures result == patch + EncodeAll(AtContainer(containerIndex, [Edit(["resources", key], Obj(map[]))]))
  {
    result := patch + [Op("add", "/spec/containers/" + Itoa(containerIndex) + "/resources/" + ToSafeJsonPatchKey(key), Obj(map[]))];
    AtContainerEncodes(containerIndex, Edit(["resources", key], Obj(map[])));
    ResourcesLiteral();
    EmptyPath(containerIndex, "resources", "/resources/", key);
  }

  lemma ResourcesLiteral()
    ensures "/" + "resources" + "/" == "/resources/" && Plain("resources")
  {
  }

  lemma EmptyPath(i: nat, member: string, middle: string, key: string)
    requires Plain(member) && middle == "/" + member + "/"
    ensures ContainerPath(i) + Render([member, key]) == ContainerPath(i) + middle + ToSafeJsonPatchKey(key)
  {
    RenderPlainPair(member, key);
  }

  method AppendResource(patch: seq<Op>, resourceName: string, reqQuantity: real, limitQuantity: real) returns (result: seq<Op>)
    ensures result == patch + EncodeAll(InResources([Edit(["requests", resourceName], Num(reqQuantity)),
                                                     Edit(["limits", resourceName], Num(limitQuantity))]))
  {
    var op1 := Op("add", "/spec/containers/0/resources/requests/" + ToSafeJsonPatchKey(resourceName), Num(reqQuantity));
    var op2 := Op("add", "/spec/containers/0/resources/limits/" + ToSafeJsonPatchKey(resourceName), Num(limitQuantity));
    result := patch + [op1];
    result := result + [op2];
    QuantityLiterals();
    QuantityEncodes("requests", "/spec/containers/0/resources/requests/", resourceName, Num(reqQuantity));
    QuantityEncodes("limits", "/spec/containers/0/resources/limits/", resourceName, Num(limitQuantity));
    PairInResources(op1, op2, Edit(["requests", resourceName], Num(reqQuantity)), Edit(["limits", resourceName], Num(limitQuantity)));
  }

  lemma QuantityLiterals()
    ensures ContainerPath(0) + "/resources/" + "requests" + "/" == "/spec/containers/0/resources/requests/"
    ensures ContainerPath(0) + "/resources/" + "limits" + "/" == "/spec/containers/0/resources/limits/"
  {
    assert Itoa(0) == "0";
  }

  lemma QuantityPath(member: string, middle: string, kind: string, prefix: string, name: string)
    requires Plain(member) && Plain(kind) && middle == "/" + member + "/" && prefix == ContainerPath(0) + middle + kind + "/"
    ensures ContainerPath(0) + Render([member, kind, name]) == prefix + ToSafeJsonPatchKey(name)
  {
    RenderBelowTwoMembers(member, kind, name);
  }

  lemma QuantityEncodes(kind: string, prefix: string, name: string, value: Json)
    requires Plain(kind) && prefix == ContainerPath(0) + "/resources/" + kind + "/"
    ensures EncodeAll(InResources([Edit([kind, name], value)])) == [Op("add", prefix + ToSafeJsonPatchKey(name), value)]
  {
    assert ["resources"] + [kind, name] == ["resources", kind, name];
    assert Under("resources", [Edit([kind, name], value)]) == [Edit(["resources", kind, name], value)];
    AtContainerEncodes(0, Edit(["resources", kind, name], value));
    ResourcesLiteral();
    QuantityPath("resources", "/resources/", kind, prefix, name);
  }

  lemma PairInResources(op1: Op, op2: Op, e1: Edit, e2: Edit)
    requires EncodeAll(InResources([e1])) == [op1] && EncodeAll(InResources([e2])) == [op2]
    ensures EncodeAll(InResources([e1, e2])) == [op1, op2]
  {
    assert [e1, e2] == [e1] + [e2];
    InResourcesConcat([e1], [e2]);
  }

  /** The counts as quantities. */
  method GetResourceList(resourceRequests: map<string, nat>) returns (resourceList: map<string, real>)
    ensures resourceList == map name | name in resourceRequests :: resourceRequests[name] as real
  {
    resourceList := map[];
    var remaining := resourceRequests.Keys;
    while remaining != {}
      invariant remaining <= resourceRequests.Keys
      invariant resourceList == map name | name in resourceRequests && name !in remaining :: resourceRequests[name] as real
      decreases remaining
    {
      var name :| name in remaining;
      remaining := remaining - {name};
      resourceList := resourceList[name := resourceRequests[name] as real];
    }
  }

  /** Deleting from the map while ranging over it: what is in some container's limits or requests is dropped. */
  method DropNamedResources(containers: seq<Container>, resourceRequests: map<string, nat>) returns (left: map<string, nat>)
    ensures forall name :: name in left <==>
              name in resourceRequests && forall i :: 0 <= i < |containers| ==> name !in containers[i].limits && name !in containers[i].requests
    ensures forall name :: name in left ==> left[name] == resourceRequests[name]
  {
    left := resourceRequests;
    var remaining := resourceRequests.Keys;
    while remaining != {}
      invariant remaining <= resourceRequests.Keys
      invariant left == map name | name in resourceRequests && (name in remaining || !NamedByAny(containers, name)) :: resourceRequests[name]
      decreases remaining
    {
      var resourceName :| resourceName in remaining;
      remaining := remaining - {resourceName};
      ghost var before := left;
      var i := 0;
      while i < |containers|
        invariant 0 <= i <= |containers|
        invariant left == if NamedByAny(containers[..i], resourceName) then before - {resourceName} else before
      {
        var container := containers[i];
        assert containers[..i + 1] == containers[..i] + [container];
        assert NamedByAny(containers[..i + 1], resourceName) <==>
               NamedByAny(containers[..i], resourceName) || resourceName in container.limits || resourceName in container.requests;
        if resourceName in container.limits {
          left := left - {resourceName};
        }
        if resourceName in container.requests {
          left := left - {resourceName};
        }
        i := i + 1;
      }
      assert containers[..|containers|] == containers;
    }
  }

  lemma UnderResources(key: string, value: Json)
    ensures InResources([Edit([key], value)]) == AtContainer(0, [Edit(["resources", key], value)])
  {
    assert ["resources"] + [key] == ["resources", key];
    assert Under("resources", [Edit([key], value)]) == [Edit(["resources", key], value)];
  }

  /** The empty parents that container 0 lacks. */
  method AddParents(patch: seq<Op>, container: Container) returns (result: seq<Op>)
    ensures result == patch + EncodeAll(InResources(Parents(container)))
  {
    result := patch;
    if |container.requests| == 0 {
      result := PatchEmptyResources(result, 0, "requests");
      UnderResources("requests", Obj(map[]));
    }
    assert result == patch + EncodeAll(InResources(EmptyEdits(container.requests, "requests")));
    if |container.limits| == 0 {
      result := PatchEmptyResources(result, 0, "limits");
      UnderResources("limits", Obj(map[]));
    }
    InResourcesConcat(EmptyEdits(container.requests, "requests"), EmptyEdits(container.limits, "limits"));
  }

  function Parents(container: Container): seq<Edit> {
    EmptyEdits(container.requests, "requests") + EmptyEdits(container.limits, "limits")
  }

  lemma NothingInResources(requests: map<string, real>, limits: map<string, real>)
    ensures EncodeAll(InResources(QuantityEdits(requests, limits, []))) == []
  {
  }

  lemma QuantityStep(patch: seq<Op>, before: seq<Op>, requests: map<string, real>, limits: map<string, real>, order: seq<string>, name: string)
    requires forall i :: 0 <= i < |order| ==> order[i] in requests && order[i] in limits
    requires name in requests && name in limits
    requires before == patch + EncodeAll(InResources(QuantityEdits(requests, limits, order)))
    ensures before + EncodeAll(InResources([Edit(["requests", name], Num(requests[name])), Edit(["limits", name], Num(limits[name]))])) ==
            patch + EncodeAll(InResources(QuantityEdits(requests, limits, order + [name])))
  {
    assert (order + [name])[..|order|] == order;
    InResourcesConcat(QuantityEdits(requests, limits, order),
                      [Edit(["requests", name], Num(requests[name])), Edit(["limits", name], Num(limits[name]))]);
  }

  lemma NewQuantitiesAdded(containers: seq<Container>, plan: Plan, list: map<string, real>)
    requires containers != []
    requires list == map name | name in WrittenResources(containers, plan) :: plan.counts[name] as real
    ensures list.Keys == WrittenResources(containers, plan)
    ensures NewRequests(containers, plan) == Added(list, if plan.honor then containers[0].requests else map[])
    ensures NewLimits(containers, plan) == Added(list, if plan.honor then containers[0].limits else map[])
  {
  }

  lemma ResourceEditsSplit(containers: seq<Container>, plan: Plan, order: seq<string>, patch: seq<Op>, parents: seq<Op>, pairs: seq<Op>)
    requires containers != [] && Enumerates(order, WrittenResources(containers, plan))
    requires parents == EncodeAll(InResources(Parents(containers[0])))
    requires pairs == EncodeAll(InResources(QuantityEdits(NewRequests(containers, plan), NewLimits(containers, plan), order)))
    ensures patch + parents + pairs == patch + EncodeAll(InResources(ResourceEdits(containers, plan, order)))
  {
    InResourcesConcat(Parents(containers[0]), QuantityEdits(NewRequests(containers, plan), NewLimits(containers, plan), order));
  }

  /** Both ways of emitting resources: parents first, then one pair per resource of the list. */
  method EmitResources(patch: seq<Op>, containers: seq<Container>, resourceList: map<string, real>,
                       existingRequests: map<string, real>, existingLimits: map<string, real>, ghost plan: Plan)
    returns (result: seq<Op>, ghost order: seq<string>)
    requires containers != []
    requires resourceList == map name | name in WrittenResources(containers, plan) :: plan.counts[name] as real
    requires existingRequests == if plan.honor then containers[0].requests else map[]
    requires existingLimits == if plan.honor then containers[0].limits else map[]
    ensures Enumerates(order, WrittenResources(containers, plan))
    ensures result == patch + EncodeAll(InResources(ResourceEdits(containers, plan, order)))
  {
    NewQuantitiesAdded(containers, plan, resourceList);
    result := AddParents(patch, containers[0]);
    result, order := AppendAll(result, resourceList, existingRequests, existingLimits);
    ResourceEditsSplit(containers, plan, order, patch, EncodeAll(InResources(Parents(containers[0]))),
                       EncodeAll(InResources(QuantityEdits(NewRequests(containers, plan), NewLimits(containers, plan), order))));
  }

  /** Without honoring existing resources: only what no container names, each with its count. */
  method CreateResourcePatch(patch: seq<Op>, containers: seq<Container>, resourceRequests: map<string, nat>, ghost plan: Plan)
    returns (result: seq<Op>, ghost order: seq<string>)
    requires containers != [] && plan.counts == resourceRequests && !plan.honor
    ensures Enumerates(order, WrittenResources(containers, plan))
    ensures result == patch + EncodeAll(InResources(ResourceEdits(containers, plan, order)))
  {
    var left := DropNamedResources(containers, resourceRequests);
    var resourceList := GetResourceList(left);
    result, order := EmitResources(patch, containers, resourceList, map[], map[], plan);
  }

  /** Honoring existing resources: every count, added to what container 0 already has. */
  method UpdateResourcePatch(patch: seq<Op>, containers: seq<Container>, resourceRequests: map<string, nat>, ghost plan: Plan)
    returns (result: seq<Op>, ghost order: seq<string>)
    requires containers != [] && plan.counts == resourceRequests && plan.honor
    ensures Enumerates(order, WrittenResources(containers, plan))
    ensures result == patch + EncodeAll(InResources(ResourceEdits(containers, plan, order)))
  {
    var resourceList := GetResourceList(resourceRequests);
    result, order := EmitResources(patch, containers, resourceList, containers[0].requests, containers[0].limits, plan);
  }

  function Added(resourceList: map<string, real>, existing: map<string, real>): map<string, real> {
    map name | name in resourceList :: resourceList[name] + QuantityIn(existing, name)
  }

  /** The emission loop: one pair of operations per resource, existing quantities added. */
  method AppendAll(patch: seq<Op>, resourceList: map<string, real>, existingRequests: map<string, real>, existingLimits: map<string, real>)
    returns (result: seq<Op>, ghost order: seq<string>)
    ensures Enumerates(order, resourceList.Keys)
    ensures result == patch + EncodeAll(InResources(
                        QuantityEdits(Added(resourceList, existingRequests), Added(resourceList, existingLimits), order)))
  {
    ghost var requests, limits := Added(resourceList, existingRequests), Added(resourceList, existingLimits);
    result, order := patch, [];
    NothingInResources(requests, limits);
    var remaining := resourceList.Keys;
    while remaining != {}
      invariant remaining <= resourceList.Keys
      invariant Enumerates(order, resourceList.Keys - remaining)
      invariant result == patch + EncodeAll(InResources(QuantityEdits(requests, limits, order)))
      decreases remaining
    {
      var resourceName :| resourceName in remaining;
      remaining := remaining - {resourceName};
      var reqQuantity, limitQuantity := resourceList[resourceName], resourceList[resourceName];
      if resourceName in existingRequests {
        reqQuantity := reqQuantity + existingRequests[resourceName];
      }
      if resourceName in existingLimits {
        limitQuantity := limitQuantity + existingLimits[resourceName];
      }
      assert reqQuantity == requests[resourceName] && limitQuantity == limits[resourceName];
      QuantityStep(patch, result, requests, limits, order, resourceName);
      result := AppendResource(result, resourceName, reqQuantity, limitQuantity);
      order := order + [resourceName];
    }
    assert resourceList.Keys - {} == resourceList.Keys;
  }

  // ---------- environment variables ----------

  method AddEnvVar(patch: seq<Op>, containerIndex: nat, firstElement: bool, envName: string, envVal: string) returns (result: seq<Op>)
    ensures result == patch + EncodeAll(AtContainer(containerIndex,
                        [if firstElement then Edit(["env"], Arr([EnvJson(envName, envVal)]))
                         else Edit(["env", "-"], EnvJson(envName, envVal))]))
  {
    var env := EnvJson(envName, envVal);
    if firstElement {
      result := patch + [Op("add", "/spec/containers/" + Itoa(containerIndex) + "/env", Arr([env]))];
    } else {
      result := patch + [Op("add", "/spec/containers/" + Itoa(containerIndex) + "/env/-", env)];
    }
    EnvPaths();
    AtContainerEncodes(containerIndex, if firstElement then Edit(["env"], Arr([env])) else Edit(["env", "-"], env));
  }

  lemma EnvLiterals()
    ensures Plain("env") && Plain("-") && "/" + "env" == "/env" && "/env" + "/" + "-" == "/env/-"
  {
  }

  lemma EnvPaths()
    ensures Render(["env"]) == "/env" && Render(["env", "-"]) == "/env/-"
  {
    EnvLiterals();
    PathOfOne("env", "/env");
    PathOfTwo("env", "-", "/env", "/env/-");
  }

  method CreateEnvPatch(patch: seq<Op>, container: Container, containerIndex: nat, envName: string, envVal: string)
    returns (result: seq<Op>)
    ensures result == patch + EncodeAll(AtContainer(containerIndex, EnsureEnvEdits(container, envName, envVal)))
  {
    var found, firstElement := false, false;
    if |container.env| != 0 {
      var i := 0;
      while i < |container.env|
        invariant 0 <= i <= |container.env|
        invariant !found && envName !in container.env[..i]
      {
        if container.env[i] == envName {
          found := true;
          break;
        }
        i := i + 1;
      }
      assert found <==> envName in container.env;
    } else {
      firstElement := true;
    }
    result := patch;
    if !found {
      result := AddEnvVar(result, containerIndex, firstElement, envName, envVal);
    }
  }

  // ---------- hugepages ----------

  lemma ListOfSnoc(c: Container, kind: Kind, order: seq<string>, name: string)
    ensures ListOf(c, kind, order + [name]) == ListOf(c, kind, order) + if Exposed(c, kind, name) then [ResourceOf(c, kind, name)] else []
  {
    assert (order + [name])[..|order|] == order;
  }

  /** One range over a container's requests or limits. */
  method CollectHugepages(container: Container, kind: Kind) returns (list: seq<HugepageResource>, ghost order: seq<string>)
    ensures Enumerates(order, QuantitiesOf(container, kind).Keys)
    ensures list == ListOf(container, kind, order)
  {
    list, order := [], [];
    var quantities := QuantitiesOf(container, kind);
    var remaining := quantities.Keys;
    while remaining != {}
      invariant remaining <= quantities.Keys
      invariant Enumerates(order, quantities.Keys - remaining)
      invariant list == ListOf(container, kind, order)
      decreases remaining
    {
      var resourceName :| resourceName in remaining;
      remaining := remaining - {resourceName};
      ListOfSnoc(container, kind, order, resourceName);
      order := order + [resourceName];
      var size := HugepageSize(resourceName);
      if size.Some? && quantities[resourceName] != 0.0 {
        list := list + [HugepageResource(KindWord(kind) + "s." + resourceName, container.name,
                                         PathOf(kind, size.value, container.name))];
      }
    }
    assert quantities.Keys - {} == quantities.Keys;
  }

  lemma {:induction false} ListedIffExposed(c: Container, kind: Kind, order: seq<string>)
    ensures ListOf(c, kind, order) != [] <==> exists i :: 0 <= i < |order| && Exposed(c, kind, order[i])
    decreases |order|
  {
    if order != [] { ListedIffExposed(c, kind, order[..|order| - 1]); }
  }

  lemma HugepagesFound(c: Container, o: KindOrders)
    requires ValidKindOrders(c, o)
    ensures HasHugepages(c) <==> ListOf(c, Requests, o.requests) != [] || ListOf(c, Limits, o.limits) != []
  {
    ListedIffExposed(c, Requests, o.requests);
    ListedIffExposed(c, Limits, o.limits);
  }

  /** One container: what it exposes, and its name in the environment if it exposes anything. */
  method ProcessContainer(patch: seq<Op>, container: Container, containerIndex: nat)
    returns (result: seq<Op>, list: seq<HugepageResource>, ghost o: KindOrders)
    ensures ValidKindOrders(container, o)
    ensures list == ListOf(container, Requests, o.requests) + ListOf(container, Limits, o.limits)
    ensures result == patch + EncodeAll(AtContainer(containerIndex, EnvEdits(container)))
  {
    result, list := patch, [];
    var found := false;
    var requested, requestOrder := CollectHugepages(container, Requests);
    if requested != [] {
      list := list + requested;
      found := true;
    }
    var limited, limitOrder := CollectHugepages(container, Limits);
    if limited != [] {
      list := list + limited;
      found := true;
    }
    o := KindOrders(requestOrder, limitOrder);
    HugepagesFound(container, o);
    if found {
      result := CreateEnvPatch(result, container, containerIndex, CONTAINER_NAME, container.name);
    }
  }

  method ProcessHugepagesForDownwardApi(patch: seq<Op>, containers: seq<Container>)
    returns (result: seq<Op>, list: seq<HugepageResource>, ghost orders: seq<KindOrders>)
    ensures ValidHugepageOrders(containers, orders)
    ensures list == ListAll(containers, orders)
    ensures result == patch + EncodeAll(ForEachContainer(EnvParts(containers)))
  {
    result, list, orders := patch, [], [];
    var i := 0;
    while i < |containers|
      invariant 0 <= i <= |containers| && |orders| == i
      invariant ValidHugepageOrders(containers[..i], orders)
      invariant list == ListAll(containers[..i], orders)
      invariant result == patch + EncodeAll(ForEachContainer(EnvParts(containers)[..i]))
    {
      EnvStep(patch, result, containers, i);
      var next, more, o := ProcessContainer(result, containers[i], i);
      result := next;
      HugepageStep(containers, orders, o, i);
      list := list + more;
      orders := orders + [o];
      i := i + 1;
    }
    assert containers[..|containers|] == containers;
    assert EnvParts(containers)[..|containers|] == EnvParts(containers);
  }

  lemma HugepageStep(containers: seq<Container>, orders: seq<KindOrders>, o: KindOrders, i: nat)
    requires i < |containers| && ValidHugepageOrders(containers[..i], orders) && ValidKindOrders(containers[i], o)
    ensures ValidHugepageOrders(containers[..i + 1], orders + [o])
    ensures ListAll(containers[..i + 1], orders + [o]) ==
            ListAll(containers[..i], orders) + (ListOf(containers[i], Requests, o.requests) + ListOf(containers[i], Limits, o.limits))
  {
    assert containers[..i + 1][..i] == containers[..i];
    assert (orders + [o])[..i] == orders;
  }

  lemma EnvStep(patch: seq<Op>, before: seq<Op>, containers: seq<Container>, i: nat)
    requires i < |containers|
    requires before == patch + EncodeAll(ForEachContainer(EnvParts(containers)[..i]))
    ensures before + EncodeAll(AtContainer(i, EnvEdits(containers[i]))) ==
            patch + EncodeAll(ForEachContainer(EnvParts(containers)[..i + 1]))
    ensures AtContainer(i, []) == []
  {
    ForEachContainerSnoc(EnvParts(containers), i);
    StepEncodes(patch, before, ForEachContainer(EnvParts(containers)[..i]), AtContainer(i, EnvEdits(containers[i])));
  }

  // ---------- mounts and the volume ----------

  lemma MountLiterals()
    ensures Plain("volumeMounts") && Plain("-") && "/" + "volumeMounts" == "/volumeMounts"
    ensures "/volumeMounts" + "/" + "-" == "/volumeMounts/-"
  {
  }

  lemma MountPaths()
    ensures Render(["volumeMounts"]) == "/volumeMounts" && Render(["volumeMounts", "-"]) == "/volumeMounts/-"
  {
    MountLiterals();
    PathOfOne("volumeMounts", "/volumeMounts");
    PathOfTwo("volumeMounts", "-", "/volumeMounts", "/volumeMounts/-");
  }

  /** The empty list of mounts a container lacks. */
  method AddMountList(patch: seq<Op>, containerIndex: nat) returns (result: seq<Op>)
    ensures result == patch + EncodeAll(AtContainer(containerIndex, [Edit(["volumeMounts"], Arr([]))]))
  {
    result := patch + [Op("add", "/spec/containers/" + Itoa(containerIndex) + "/volumeMounts", Arr([]))];
    MountPaths();
    AtContainerEncodes(containerIndex, Edit(["volumeMounts"], Arr([])));
  }

  method AddMount(patch: seq<Op>, containerIndex: nat) returns (result: seq<Op>)
    ensures result == patch + EncodeAll(AtContainer(containerIndex, [Edit(["volumeMounts", "-"], MOUNT_JSON)]))
  {
    result := patch + [Op("add", "/spec/containers/" + Itoa(containerIndex) + "/volumeMounts/-", MOUNT_JSON)];
    MountPaths();
    AtContainerEncodes(containerIndex, Edit(["volumeMounts", "-"], MOUNT_JSON));
  }

  /** One container's mount, unless it has one of that name. */
  method MountContainer(patch: seq<Op>, container: Container, containerIndex: nat) returns (result: seq<Op>)
    ensures result == patch + EncodeAll(AtContainer(containerIndex, MountEdits(container)))
  {
    result := patch;
    if POD_NET_INFO in container.volumeMounts {
      return;
    }
    if |container.volumeMounts| == 0 {
      result := AddMountList(result, containerIndex);
    }
    result := AddMount(result, containerIndex);
    MountEncodes(container, containerIndex);
  }

  lemma MountEncodes(container: Container, i: nat)
    requires POD_NET_INFO !in container.volumeMounts
    ensures EncodeAll(AtContainer(i, MountEdits(container))) ==
            (if container.volumeMounts == [] then EncodeAll(AtContainer(i, [Edit(["volumeMounts"], Arr([]))])) else [])
            + EncodeAll(AtContainer(i, [Edit(["volumeMounts", "-"], MOUNT_JSON)]))
  {
    AtContainerNothing(i);
    AtContainerEncodeConcat(i, if container.volumeMounts == [] then [Edit(["volumeMounts"], Arr([]))] else [],
                            [Edit(["volumeMounts", "-"], MOUNT_JSON)]);
  }

  lemma AtContainerNothing(i: nat)
    ensures EncodeAll(AtContainer(i, [])) == []
  {
  }

  lemma AtContainerEncodeConcat(i: nat, a: seq<Edit>, b: seq<Edit>)
    ensures EncodeAll(AtContainer(i, a + b)) == EncodeAll(AtContainer(i, a)) + EncodeAll(AtContainer(i, b))
  {
    AtContainerConcat(i, a, b);
    EncodeConcat(AtContainer(i, a), AtContainer(i, b));
  }

  method AddVolumeMount(patch: seq<Op>, containers: seq<Container>) returns (result: seq<Op>)
    ensures result == patch + EncodeAll(ForEachContainer(MountParts(containers)))
  {
    result := patch;
    var i := 0;
    while i < |containers|
      invariant 0 <= i <= |containers|
      invariant result == patch + EncodeAll(ForEachContainer(MountParts(containers)[..i]))
    {
      MountStep(patch, result, containers, i);
      result := MountContainer(result, containers[i], i);
      i := i + 1;
    }
    assert MountParts(containers)[..|containers|] == MountParts(containers);
  }

  lemma MountStep(patch: seq<Op>, before: seq<Op>, containers: seq<Container>, i: nat)
    requires i < |containers|
    requires before == patch + EncodeAll(ForEachContainer(MountParts(containers)[..i]))
    ensures before + EncodeAll(AtContainer(i, MountEdits(containers[i]))) ==
            patch + EncodeAll(ForEachContainer(MountParts(containers)[..i + 1]))
  {
    ForEachContainerSnoc(MountParts(containers), i);
    StepEncodes(patch, before, ForEachContainer(MountParts(containers)[..i]), AtContainer(i, MountEdits(containers[i])));
  }

  lemma VolumeLiterals()
    ensures Plain("spec") && Plain("volumes") && Plain("-") && "/" + "spec" == "/spec"
    ensures "/spec" + "/" + "volumes" == "/spec/volumes" && "/spec/volumes" + "/" + "-" == "/spec/volumes/-"
  {
  }

  lemma VolumePaths()
    ensures Render(["spec", "volumes"]) == "/spec/volumes" && Render(["spec", "volumes", "-"]) == "/spec/volumes/-"
  {
    VolumeLiterals();
    PathOfTwo("spec", "volumes", "/spec", "/spec/volumes");
    PathOfThree("spec", "volumes", "-", "/spec/volumes", "/spec/volumes/-");
  }

  method CollectMetadataItems(pod: Pod) returns (items: seq<Json>)
    ensures items == MetadataItems(pod)
  {
    items := [];
    if |pod.labels| > 0 {
      items := items + [FieldItem("labels", "metadata.labels")];
    }
    if |pod.annotations| > 0 {
      items := items + [FieldItem("annotations", "metadata.annotations")];
    }
  }

  /** The Downward API items: metadata the pod has, then the exposed hugepages. */
  method CollectItems(hugepageResourceList: seq<HugepageResource>, pod: Pod) returns (items: seq<Json>)
    ensures items == VolumeItems(pod, hugepageResourceList)
  {
    items := CollectMetadataItems(pod);
    ghost var metadata := items;
    var i := 0;
    while i < |hugepageResourceList|
      invariant 0 <= i <= |hugepageResourceList|
      invariant items == metadata + ResourceItems(hugepageResourceList[..i])
    {
      ResourceItemsSnoc(hugepageResourceList, i);
      items := items + [ResourceItem(hugepageResourceList[i])];
      i := i + 1;
    }
    assert hugepageResourceList[..i] == hugepageResourceList;
  }

  lemma ResourceItemsSnoc(list: seq<HugepageResource>, i: nat)
    requires i < |list|
    ensures ResourceItems(list[..i + 1]) == ResourceItems(list[..i]) + [ResourceItem(list[i])]
  {
  }

  method AddVolDownwardApi(patch: seq<Op>, hugepageResourceList: seq<HugepageResource>, pod: Pod) returns (result: seq<Op>)
    ensures result == patch + EncodeAll(Under("spec", VolumeEdits(pod, hugepageResourceList)))
  {
    result := patch;
    var v := 0;
    while v < |pod.volumes|
      invariant 0 <= v <= |pod.volumes| && POD_NET_INFO !in pod.volumes[..v]
    {
      if pod.volumes[v] == POD_NET_INFO {
        return;
      }
      v := v + 1;
    }
    if |pod.volumes| == 0 {
      result := result + [Op("add", "/spec/volumes", Arr([]))];
    }
    var items := CollectItems(hugepageResourceList, pod);
    result := result + [Op("add", "/spec/volumes/-", VolumeJson(items))];
    VolumeEncodes(VolumeJson(items));
  }

  lemma UnderEncodes(key: string, e: Edit, path: string)
    requires Render([key] + e.path) == path
    ensures EncodeAll(Under(key, [e])) == [Op("add", path, e.value)]
  {
  }

  lemma UnderConcat(key: string, a: seq<Edit>, b: seq<Edit>)
    ensures EncodeAll(Under(key, a + b)) == EncodeAll(Under(key, a)) + EncodeAll(Under(key, b))
  {
  }

  lemma ListEditsEncode(parent: string, list: string, end: string, path1: string, path2: string, empty: Json, item: Json)
    requires Render([parent, list]) == path1 && Render([parent, list, end]) == path2
    ensures EncodeAll(Under(parent, [Edit([list, end], item)])) == [Op("add", path2, item)]
    ensures EncodeAll(Under(parent, [Edit([list], empty)] + [Edit([list, end], item)])) ==
            [Op("add", path1, empty)] + [Op("add", path2, item)]
  {
    assert [parent] + [list] == [parent, list] && [parent] + [list, end] == [parent, list, end];
    UnderEncodes(parent, Edit([list], empty), path1);
    UnderEncodes(parent, Edit([list, end], item), path2);
    UnderConcat(parent, [Edit([list], empty)], [Edit([list, end], item)]);
  }

  lemma VolumeEncodes(volume: Json)
    ensures EncodeAll(Under("spec", [Edit(["volumes", "-"], volume)])) == [Op("add", "/spec/volumes/-", volume)]
    ensures EncodeAll(Under("spec", [Edit(["volumes"], Arr([]))] + [Edit(["volumes", "-"], volume)])) ==
            [Op("add", "/spec/volumes", Arr([]))] + [Op("add", "/spec/volumes/-", volume)]
    ensures [] + [Edit(["volumes", "-"], volume)] == [Edit(["volumes", "-"], volume)]
  {
    VolumePaths();
    ListEditsEncode("spec", "volumes", "-", "/spec/volumes", "/spec/volumes/-", Arr([]), volume);
  }

  method CreateVolPatch(patch: seq<Op>, hugepageResourceList: seq<HugepageResource>, pod: Pod) returns (result: seq<Op>)
    ensures result == patch + EncodeAll(ForEachContainer(MountParts(pod.containers)))
                            + EncodeAll(Under("spec", VolumeEdits(pod, hugepageResourceList)))
  {
    result := AddVolumeMount(patch, pod.containers);
    result := AddVolDownwardApi(result, hugepageResourceList, pod);
  }

  // ---------- annotations and the node selector ----------

  lemma MetadataLiterals()
    ensures Plain("metadata") && Plain("annotations") && "/" + "metadata" == "/metadata"
    ensures "/metadata" + "/" + "annotations" == "/metadata/annotations"
  {
  }

  lemma SelectorLiterals()
    ensures Plain("spec") && Plain("nodeSelector") && "/" + "spec" == "/spec"
    ensures "/spec" + "/" + "nodeSelector" == "/spec/nodeSelector"
  {
  }

  lemma LastPaths()
    ensures Render(["metadata", "annotations"]) == "/metadata/annotations"
    ensures Render(["spec", "nodeSelector"]) == "/spec/nodeSelector"
  {
    MetadataLiterals();
    SelectorLiterals();
    PathOfTwo("metadata", "annotations", "/metadata", "/metadata/annotations");
    PathOfTwo("spec", "nodeSelector", "/spec", "/spec/nodeSelector");
  }

  /** Adds the entries of `from` whose keys are not there yet, whatever the order of visiting them. */
  method AddMissing(into: map<string, string>, from: map<string, string>) returns (result: map<string, string>)
    ensures result == from + into
  {
    result := into;
    var remaining := from.Keys;
    while remaining != {}
      invariant remaining <= from.Keys
      invariant result == (map key | key in from && key !in remaining :: from[key]) + into
      decreases remaining
    {
      var key :| key in remaining;
      remaining := remaining - {key};
      if key !in into {
        result := result[key := from[key]];
      }
    }
  }

  /** The annotations of the matching injections, the first one winning on every key. */
  method CollectInjected(userDefinedPatch: seq<Injection>) returns (annotations: map<string, string>)
    ensures annotations == MergeInjected(userDefinedPatch)
  {
    annotations := map[];
    var i := 0;
    while i < |userDefinedPatch|
      invariant 0 <= i <= |userDefinedPatch|
      invariant annotations == MergeInjected(userDefinedPatch[..i])
    {
      assert userDefinedPatch[..i + 1][..i] == userDefinedPatch[..i];
      var p := userDefinedPatch[i];
      if p.path == ANNOTATIONS_PATH && p.op == "add" {
        annotations := AddMissing(annotations, AnnotationsOf(p));
      }
      i := i + 1;
    }
    assert userDefinedPatch[..i] == userDefinedPatch;
  }

  lemma EditEncodes(e: Edit, path: string)
    requires Render(e.path) == path
    ensures EncodeAll([e]) == [Op("add", path, e.value)]
  {
  }

  method AppendAddAnnotPatch(patch: seq<Op>, pod: Pod, userDefinedPatch: seq<Injection>) returns (result: seq<Op>)
    ensures result == patch + EncodeAll(AnnotationEdits(pod, MergeInjected(userDefinedPatch)))
  {
    var annotations := CollectInjected(userDefinedPatch);
    result := patch;
    if |annotations| > 0 {
      var merged := AddMissing(annotations, pod.annotations);
      var value := Obj(StringFields(merged));
      result := result + [Op("add", "/metadata/annotations", value)];
      LastPaths();
      EditEncodes(Edit(["metadata", "annotations"], value), "/metadata/annotations");
    }
  }

  method CreateNodeSelectorPatch(patch: seq<Op>, pod: Pod, desired: map<string, string>) returns (result: seq<Op>)
    ensures result == patch + EncodeAll(NodeSelectorEdits(pod, desired))
  {
    var targetMap := CopyInto(map[], pod.nodeSelector);
    assert targetMap == pod.nodeSelector;
    targetMap := CopyInto(targetMap, desired);
    result := patch;
    if |targetMap| == 0 {
      return;
    }
    result := result + [Op("add", "/spec/nodeSelector", Obj(StringFields(targetMap)))];
    NodeSelectorEncodes(Obj(StringFields(targetMap)));
  }

  lemma NodeSelectorEncodes(value: Json)
    ensures EncodeAll([Edit(["spec", "nodeSelector"], value)]) == [Op("add", "/spec/nodeSelector", value)]
  {
    LastPaths();
    EditEncodes(Edit(["spec", "nodeSelector"], value), "/spec/nodeSelector");
  }

  method CopyInto(into: map<string, string>, from: map<string, string>) returns (result: map<string, string>)
    ensures result == into + from
  {
    result := into;
    var remaining := from.Keys;
    while remaining != {}
      invariant remaining <= from.Keys
      invariant result == into + map key | key in from && key !in remaining :: from[key]
      decreases remaining
    {
      var key :| key in remaining;
      remaining := remaining - {key};
      result := result[key := from[key]];
    }
  }

  // ---------- selections and networks ----------

  /** Looks for the key among one injection's annotations. */
  method SearchInjection(p: Injection, annotationKey: string) returns (found: Option<string>)
    ensures found == if annotationKey in AnnotationsOf(p) then Some(AnnotationsOf(p)[annotationKey]) else None
  {
    var remaining := AnnotationsOf(p).Keys;
    while remaining != {}
      invariant remaining <= AnnotationsOf(p).Keys
      invariant annotationKey in AnnotationsOf(p) ==> annotationKey in remaining
      decreases remaining
    {
      var key :| key in remaining;
      remaining := remaining - {key};
      if key == annotationKey {
        return Some(AnnotationsOf(p)[key]);
      }
    }
    return None;
  }

  lemma {:induction false} FirstInjectedStays(injections: seq<Injection>, key: string, n: nat)
    requires n <= |injections| && FirstInjected(injections[..n], key).Some?
    ensures FirstInjected(injections, key) == FirstInjected(injections[..n], key)
    decreases |injections|
  {
    if n == |injections| {
      assert injections[..n] == injections;
    } else {
      var front := injections[..|injections| - 1];
      assert front[..n] == injections[..n];
      FirstInjectedStays(front, key, n);
    }
  }

  method GetNetworkSelections(annotationKey: string, pod: Pod, userDefinedPatch: seq<Injection>)
    returns (nets: string, exists_: bool)
    ensures exists_ == SelectionText(annotationKey, pod, userDefinedPatch).Some?
    ensures nets == if exists_ then SelectionText(annotationKey, pod, userDefinedPatch).value else ""
  {
    if annotationKey in pod.annotations {
      return pod.annotations[annotationKey], true;
    }
    var i := 0;
    while i < |userDefinedPatch|
      invariant 0 <= i <= |userDefinedPatch|
      invariant FirstInjected(userDefinedPatch[..i], annotationKey).None?
    {
      assert userDefinedPatch[..i + 1][..i] == userDefinedPatch[..i];
      var p := userDefinedPatch[i];
      if p.op == "add" && p.path == ANNOTATIONS_PATH {
        var found := SearchInjection(p, annotationKey);
        if found.Some? {
          FirstInjectedStays(userDefinedPatch, annotationKey, i + 1);
          return found.value, true;
        }
      }
      i := i + 1;
    }
    assert userDefinedPatch[..i] == userDefinedPatch;
    return "", false;
  }

  /** One network: its annotations from the cache or the API server, counted; None denies the pod. */
  method ParseNetworkAttachDefinition(element: Element, cache: NetAttachDefCache, store: Store, resourceNameKeys: seq<string>, tally: Tally)
    returns (result: Option<Tally>)
    ensures var found := Lookup(cache.networkAnnotationsMap, store, element.namespace, element.name);
            result == if Accepted(found)
                      then Some(Tally(CountInto(tally.counts, found.value, resourceNameKeys), Select(tally.desired, found.value)))
                      else None
  {
    var cached := cache.Get(element.namespace, element.name);
    var annotationsMap: map<string, string>;
    if cached.Some? {
      annotationsMap := cached.value;
    } else {
      var name := NadName(element.namespace, element.name);
      if name !in store {
        return None;
      }
      annotationsMap := if store[name].Some? then store[name].value else map[];
    }
    var reqs := tally.counts;
    var k := 0;
    while k < |resourceNameKeys|
      invariant 0 <= k <= |resourceNameKeys|
      invariant reqs == CountInto(tally.counts, annotationsMap, resourceNameKeys[..k])
    {
      assert resourceNameKeys[..k + 1][..k] == resourceNameKeys[..k];
      var key := resourceNameKeys[k];
      if key in annotationsMap {
        var resourceName := annotationsMap[key];
        reqs := reqs[resourceName := CountOf(reqs, resourceName) + 1];
      }
      k := k + 1;
    }
    assert resourceNameKeys[..k] == resourceNameKeys;
    var nsMap := tally.desired;
    if NODE_SELECTOR_KEY in annotationsMap {
      var ns := annotationsMap[NODE_SELECTOR_KEY];
      var nsNameValue := Split(ns, '=');
      if |nsNameValue| > 2 {
        return None;
      } else if |nsNameValue| == 2 {
        nsMap := nsMap[TrimSpace(nsNameValue[0]) := TrimSpace(nsNameValue[1])];
      } else {
        nsMap := nsMap[TrimSpace(ns) := ""];
      }
    }
    return Some(Tally(reqs, nsMap));
  }

  /** A list of networks, one after another; the first that is refused denies the pod. */
  method TallyNetworks(elements: seq<Element>, cache: NetAttachDefCache, store: Store, resourceNameKeys: seq<string>, start: Tally)
    returns (result: Option<Tally>)
    ensures var found := FoundAll(elements, cache.networkAnnotationsMap, store);
            result == if AllAccepted(found) then Some(TallyOf(start, found, resourceNameKeys)) else None
  {
    ghost var found := FoundAll(elements, cache.networkAnnotationsMap, store);
    var tally := start;
    var i := 0;
    while i < |elements|
      invariant 0 <= i <= |elements|
      invariant AllAccepted(found[..i])
      invariant tally == TallyOf(start, found[..i], resourceNameKeys)
    {
      var next := ParseNetworkAttachDefinition(elements[i], cache, store, resourceNameKeys, tally);
      if next.None? {
        assert !Accepted(found[i]);
        return None;
      }
      assert found[..i + 1][..i] == found[..i];
      tally := next.value;
      i := i + 1;
    }
    assert found[..i] == found;
    return Some(tally);
  }

  // ---------- the handler ----------

  ghost function EnvironmentOf(switches: ControlSwitches, cache: NetAttachDefCache, store: Store, decode: Decoder): Environment
    reads switches, cache
  {
    Environment(cache.networkAnnotationsMap, store, switches.resourceNameKeys,
                StateOf(switches.configuration, HONOR_RESOURCES).active,
                StateOf(switches.configuration, HUGEPAGE_API).active, decode)
  }

  /** Which switch is which. */
  lemma EnvironmentSwitches(switches: ControlSwitches, cache: NetAttachDefCache, store: Store, decode: Decoder, hugepages: State, honor: State)
    requires switches.configuration == map["enableHugePageDownApi" := hugepages, "enableHonorExistingResources" := honor]
    ensures EnvironmentOf(switches, cache, store, decode).hugepages == hugepages.active
    ensures EnvironmentOf(switches, cache, store, decode).honor == honor.active
  {
    assert |"enableHugePageDownApi"| != |"enableHonorExistingResources"|;
  }

  /** The resources of container 0, honoring existing ones or not. */
  method BuildResources(pod: Pod, counts: map<string, nat>, switches: ControlSwitches, ghost plan: Plan)
    returns (patch: seq<Op>, ghost order: seq<string>)
    requires pod.containers != [] && plan.counts == counts
    requires plan.honor == StateOf(switches.configuration, HONOR_RESOURCES).active
    ensures Enumerates(order, WrittenResources(pod.containers, plan))
    ensures patch == EncodeAll(InResources(ResourceEdits(pod.containers, plan, order)))
  {
    var honor := switches.IsHonorExistingResourcesEnabled();
    if honor {
      patch, order := UpdateResourcePatch([], pod.containers, counts, plan);
    } else {
      patch, order := CreateResourcePatch([], pod.containers, counts, plan);
    }
  }

  /** Hugepages with their environment variables, if the feature is on. */
  method BuildHugepages(patch: seq<Op>, pod: Pod, switches: ControlSwitches, ghost plan: Plan)
    returns (result: seq<Op>, list: seq<HugepageResource>, ghost orders: seq<KindOrders>)
    requires plan.hugepages == StateOf(switches.configuration, HUGEPAGE_API).active
    ensures plan.hugepages ==> ValidHugepageOrders(pod.containers, orders) && list == ListAll(pod.containers, orders)
    ensures !plan.hugepages ==> list == []
    ensures result == patch + EncodeAll(if plan.hugepages then ForEachContainer(EnvParts(pod.containers)) else [])
  {
    result, list, orders := patch, [], [];
    var hugepages := switches.IsHugePagedownApiEnabled();
    if hugepages {
      result, list, orders := ProcessHugepagesForDownwardApi(result, pod.containers);
    }
  }

  /** Everything but the node selector, for a pod with a counted resource. */
  method BuildCounted(pod: Pod, counts: map<string, nat>, userDefinedPatch: seq<Injection>, switches: ControlSwitches, ghost plan: Plan)
    returns (patch: seq<Op>, ghost order: EmissionOrder)
    requires pod.containers != [] && counts != map[] && plan.counts == counts && plan.injected == MergeInjected(userDefinedPatch)
    requires plan.honor == StateOf(switches.configuration, HONOR_RESOURCES).active
    requires plan.hugepages == StateOf(switches.configuration, HUGEPAGE_API).active
    ensures ValidOrder(pod, plan, order)
    ensures patch + EncodeAll(NodeSelectorEdits(pod, plan.desired)) == EncodeAll(PodEdits(pod, plan, order))
  {
    ghost var resourceOrder, hugepageOrders;
    var list;
    patch, resourceOrder := BuildResources(pod, counts, switches, plan);
    patch, list, hugepageOrders := BuildHugepages(patch, pod, switches, plan);
    patch := CreateVolPatch(patch, list, pod);
    patch := AppendAddAnnotPatch(patch, pod, userDefinedPatch);
    order := EmissionOrder(resourceOrder, hugepageOrders);
    CountedEditsEncode(pod, plan, order, list);
  }

  lemma CountedEditsEncode(pod: Pod, plan: Plan, order: EmissionOrder, list: seq<HugepageResource>)
    requires pod.containers != [] && plan.counts != map[] && ValidOrder(pod, plan, order) && list == ExposedList(pod, plan, order)
    ensures EncodeAll(PodEdits(pod, plan, order)) ==
            EncodeAll(InResources(ResourceEdits(pod.containers, plan, order.resources)))
            + EncodeAll(if plan.hugepages then ForEachContainer(EnvParts(pod.containers)) else [])
            + EncodeAll(ForEachContainer(MountParts(pod.containers)))
            + EncodeAll(Under("spec", VolumeEdits(pod, list)))
            + EncodeAll(AnnotationEdits(pod, plan.injected)) + EncodeAll(NodeSelectorEdits(pod, plan.desired))
  {
    PodEditsEncode(pod, plan, order, list);
    ContainerEditsEncode(pod.containers, plan, order.resources);
    FinalEditsEncode(pod, plan, list);
    Flatten(EncodeAll(InResources(ResourceEdits(pod.containers, plan, order.resources))),
            EncodeAll(if plan.hugepages then ForEachContainer(EnvParts(pod.containers)) else []),
            EncodeAll(ForEachContainer(MountParts(pod.containers))),
            EncodeAll(Under("spec", VolumeEdits(pod, list))),
            EncodeAll(AnnotationEdits(pod, plan.injected)), EncodeAll(NodeSelectorEdits(pod, plan.desired)));
  }

  lemma Flatten(a: seq<Op>, b: seq<Op>, c: seq<Op>, d: seq<Op>, e: seq<Op>, f: seq<Op>)
    ensures a + b + c + (d + e + f) == a + b + c + d + e + f
  {
  }

  lemma PodEditsEncode(pod: Pod, plan: Plan, order: EmissionOrder, list: seq<HugepageResource>)
    requires pod.containers != [] && plan.counts != map[] && ValidOrder(pod, plan, order) && list == ExposedList(pod, plan, order)
    ensures EncodeAll(PodEdits(pod, plan, order)) ==
            EncodeAll(ContainerEdits(pod.containers, plan, order.resources)) + EncodeAll(FinalEdits(pod, plan, list))
  {
    EncodeConcat(ContainerEdits(pod.containers, plan, order.resources), FinalEdits(pod, plan, list));
  }

  method BuildPatch(pod: Pod, tally: Tally, userDefinedPatch: seq<Injection>, switches: ControlSwitches, ghost plan: Plan)
    returns (patch: seq<Op>, ghost order: EmissionOrder)
    requires tally.counts != map[] ==> pod.containers != []
    requires plan == Plan(tally.counts, tally.desired, MergeInjected(userDefinedPatch),
                          StateOf(switches.configuration, HONOR_RESOURCES).active,
                          StateOf(switches.configuration, HUGEPAGE_API).active)
    ensures ValidOrder(pod, plan, order)
    ensures patch == EncodeAll(PodEdits(pod, plan, order))
  {
    patch, order := [], EmissionOrder([], []);
    if |tally.counts| != 0 {
      patch, order := BuildCounted(pod, tally.counts, userDefinedPatch, switches, plan);
    }
    patch := CreateNodeSelectorPatch(patch, pod, tally.desired);
  }

  lemma ContainerEditsEncode(containers: seq<Container>, plan: Plan, order: seq<string>)
    requires containers != [] && Enumerates(order, WrittenResources(containers, plan))
    ensures EncodeAll(ContainerEdits(containers, plan, order)) ==
            EncodeAll(InResources(ResourceEdits(containers, plan, order)))
            + EncodeAll(if plan.hugepages then ForEachContainer(EnvParts(containers)) else [])
            + EncodeAll(ForEachContainer(MountParts(containers)))
  {
    var s1 := InResources(ResourceEdits(containers, plan, order));
    var s2 := if plan.hugepages then ForEachContainer(EnvParts(containers)) else [];
    EncodeConcat(s1 + s2, ForEachContainer(MountParts(containers)));
    EncodeConcat(s1, s2);
  }

  lemma FinalEditsEncode(pod: Pod, plan: Plan, list: seq<HugepageResource>)
    ensures EncodeAll(FinalEdits(pod, plan, list)) ==
            EncodeAll(Under("spec", VolumeEdits(pod, list)))
            + EncodeAll(AnnotationEdits(pod, plan.injected)) + EncodeAll(NodeSelectorEdits(pod, plan.desired))
  {
    var s1, s2, s3 := Under("spec", VolumeEdits(pod, list)), AnnotationEdits(pod, plan.injected), NodeSelectorEdits(pod, plan.desired);
    EncodeConcat(s1, s2 + s3);
    EncodeConcat(s2, s3);
  }

  datatype Progress = ParseError | Refusal | Tallied(tally: Tally)

  /** One network annotation: parse it, then tally its networks. */
  method TallySelections(text: string, singleOnly: bool, namespace: string, cache: NetAttachDefCache, store: Store,
                         resourceNameKeys: seq<string>, decode: Decoder, start: Tally)
    returns (progress: Progress)
    ensures match ElementsOf(Some(text), namespace, decode)
            case None => progress == ParseError
            case Some(elements) =>
              var found := FoundAll(if singleOnly then SingleOnly(elements) else elements, cache.networkAnnotationsMap, store);
              progress == if AllAccepted(found) then Tallied(TallyOf(start, found, resourceNameKeys)) else Refusal
  {
    if text == "" {
      assert FoundAll([], cache.networkAnnotationsMap, store) == [];
      return Tallied(start);
    }
    var selections := ParsePodNetworkSelections(text, namespace, decode);
    if selections.None? {
      return ParseError;
    }
    if singleOnly && |selections.value| != 1 {
      return Tallied(start);
    }
    var tally := TallyNetworks(selections.value, cache, store, resourceNameKeys, start);
    return if tally.Some? then Tallied(tally.value) else Refusal;
  }

  /** The pod of a request and its namespace; None refuses the request. */
  method DeserializePod(request: Request, partial: PartialDecoder) returns (known: Option<Known>)
    ensures known == Deserialized(request, partial)
  {
    var decoded := DecodedFrom(request.doc, partial);
    var failed := !WellTyped(request.doc);
    var pod, podNamespace := decoded.pod, decoded.namespace;
    if podNamespace != "" {
      return if failed then None else Some(Known(pod, podNamespace));
    }
    if request.namespace != "" {
      return Some(Known(pod, request.namespace));
    }
    if decoded.owned {
      if request.owner.None? {
        return None;
      }
      podNamespace := request.owner.value;
    }
    return if failed then None else Some(Known(pod, podNamespace));
  }

  /** From an admission request to the answer. */
  method MutateHandler(request: Request, partial: PartialDecoder, switches: ControlSwitches,
                       userDefinedInjections: UserDefinedInjections, cache: NetAttachDefCache, store: Store, decode: Decoder)
    returns (response: Response, ghost injectionOrder: seq<string>, ghost order: EmissionOrder)
    ensures forall i :: 0 <= i < |injectionOrder| ==> injectionOrder[i] in userDefinedInjections.Patchs
    ensures match Deserialized(request, partial)
            case None => response == Denied
            case Some(known) =>
              && Enumerates(injectionOrder, userDefinedInjections.Patchs.Keys)
              && AnswersPod(known.pod, known.namespace, Matching(userDefinedInjections.Patchs, known.pod.labels, injectionOrder),
                            EnvironmentOf(switches, cache, store, decode), order, response)
    // A patch for a document that decodes, applied to it, is the transform.
    ensures WellTyped(request.doc) && response.Allowed? ==>
              && Deserialized(request, partial).Some?
              && var c := HandledCase(request, Deserialized(request, partial).value, userDefinedInjections.Patchs, injectionOrder,
                                      EnvironmentOf(switches, cache, store, decode), order);
                 && Admits(c, response.patch) && Proceeds(c)
                 && Apply(request.doc, response.patch) ==
                    if HasParents(request.doc, PlanIn(c)) then Some(Transform(request.doc, PlanIn(c), ListIn(c))) else None
  {
    injectionOrder, order := [], EmissionOrder([], []);
    var known := DeserializePod(request, partial);
    if known.None? {
      return Denied, injectionOrder, order;
    }
    var pod := known.value.pod;
    var userDefinedPatch;
    userDefinedPatch, injectionOrder := userDefinedInjections.CreateUserDefinedPatch(pod.labels);
    response, order := Respond(pod, known.value.namespace, userDefinedPatch, switches, cache, store, decode);
    if WellTyped(request.doc) && response.Allowed? {
      HandlerYieldsTransform(request, partial, userDefinedInjections.Patchs, injectionOrder,
                             EnvironmentOf(switches, cache, store, decode), order, response.patch);
    }
  }

  /** Both network annotations, the default network first. */
  method JudgeSelections(pod: Pod, namespace: string, userDefinedPatch: seq<Injection>, cache: NetAttachDefCache, store: Store,
                         resourceNameKeys: seq<string>, decode: Decoder, ghost env: Environment)
    returns (selected: bool, progress: Progress)
    requires env.table == cache.networkAnnotationsMap && env.store == store
    requires env.resourceKeys == resourceNameKeys && env.decode == decode
    ensures match Judge(pod, namespace, userDefinedPatch, env)
            case Skip => !selected
            case Malformed => selected && progress == ParseError
            case Refuse => selected && progress == Refusal
            case Proceed(found) => selected && AllAccepted(found) && progress == Tallied(TallyOf(NOTHING, found, resourceNameKeys))
  {
    var defaultText, defExist := GetNetworkSelections(DEFAULT_NETWORK_KEY, pod, userDefinedPatch);
    var networksText, addExists := GetNetworkSelections(NETWORKS_KEY, pod, userDefinedPatch);
    selected := defExist || addExists;
    progress := ParseError;
    if !selected {
      return;
    }
    progress := TallySelections(defaultText, true, namespace, cache, store, resourceNameKeys, decode, NOTHING);
    if !progress.Tallied? {
      return;
    }
    ghost var first := FoundAll(SingleOnly(ElementsOf(Some(defaultText), namespace, decode).value), env.table, store);
    progress := TallySelections(networksText, false, namespace, cache, store, resourceNameKeys, decode, progress.tally);
    if progress.Tallied? {
      TallyConcat(NOTHING, first, FoundAll(ElementsOf(Some(networksText), namespace, decode).value, env.table, store), resourceNameKeys);
    }
  }

  /** The part of the handler after the pod and its matching injections are known. */
  method Respond(pod: Pod, namespace: string, userDefinedPatch: seq<Injection>, switches: ControlSwitches,
                 cache: NetAttachDefCache, store: Store, decode: Decoder)
    returns (response: Response, ghost order: EmissionOrder)
    ensures AnswersPod(pod, namespace, userDefinedPatch, EnvironmentOf(switches, cache, store, decode), order, response)
  {
    order := EmissionOrder([], []);
    ghost var env := EnvironmentOf(switches, cache, store, decode);
    var selected, progress := JudgeSelections(pod, namespace, userDefinedPatch, cache, store, switches.resourceNameKeys, decode, env);
    if !selected {
      return AllowedUnchanged, order;
    }
    match progress
    case ParseError => return BadRequest, order;
    case Refusal => return Denied, order;
    case Tallied(tally) =>
      if |tally.counts| != 0 && |pod.containers| == 0 {
        return Crashed, order;
      }
      var patch;
      patch, order := BuildPatch(pod, tally, userDefinedPatch, switches,
                                 PlanFor(Judge(pod, namespace, userDefinedPatch, env).found, userDefinedPatch, env));
      return Allowed(patch), order;
  }
}
