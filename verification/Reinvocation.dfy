/**
 Admission plugins may be invoked again on the pod they changed. What the second invocation
 answers, and exactly when it changes nothing.
 */
module Reinvocation {
  import opened Wrappers
  import opened JsonPatch
  import opened PodView
  import opened Hugepages
  import opened PatchPlan
  import opened PodTransform
  import opened Selections
  import opened NadCache
  import opened Networks
  import opened Injections
  import opened Decision
  import opened Admission

  // ---------- when there is nothing to write, on the decoded pod ----------

  /** Whatever the plan asks for, the pod already has. */
  predicate Quiet(pod: Pod, plan: Plan) {
    && pod.nodeSelector + plan.desired == pod.nodeSelector
    && (plan.counts != map[] ==>
          && WrittenResources(pod.containers, plan) == {}
          && POD_NET_INFO in pod.volumes
          && pod.annotations + plan.injected == pod.annotations
          && forall i :: 0 <= i < |pod.containers| ==> QuietContainer(pod.containers[i], plan))
  }

  predicate QuietContainer(c: Container, plan: Plan) {
    && POD_NET_INFO in c.volumeMounts
    && (plan.hugepages && HasHugepages(c) ==> CONTAINER_NAME in c.env)
  }

  /** Tallies record no zero counts. */
  predicate Positive(counts: map<string, nat>) {
    forall name :: name in counts ==> counts[name] > 0
  }

  lemma WrittenChanges(containers: seq<Container>, plan: Plan, name: string)
    requires containers != [] && Positive(plan.counts) && name in WrittenResources(containers, plan)
    ensures ContainerAfter(containers, 0, plan).requests != containers[0].requests
  {
    var before, after := containers[0].requests, containers[0].requests + NewRequests(containers, plan);
    assert name in before ==> NamedByAny(containers, name);
    assert name in after && after[name] == plan.counts[name] as real + if plan.honor then QuantityIn(before, name) else 0.0;
  }

  lemma WritingChanges(containers: seq<Container>, plan: Plan)
    requires containers != [] && Positive(plan.counts)
    ensures WrittenResources(containers, plan) != {} ==> ContainerAfter(containers, 0, plan) != containers[0]
  {
    if WrittenResources(containers, plan) != {} {
      var name :| name in WrittenResources(containers, plan);
      WrittenChanges(containers, plan, name);
    }
  }

  lemma UnchangedContainerIsQuiet(containers: seq<Container>, i: nat, plan: Plan)
    requires i < |containers| && ContainerAfter(containers, i, plan) == containers[i]
    ensures QuietContainer(containers[i], plan)
  {
  }

  lemma UnchangedIsQuiet(pod: Pod, plan: Plan)
    requires Positive(plan.counts) && (plan.counts != map[] ==> pod.containers != [])
    requires PodAfter(pod, plan) == pod
    ensures Quiet(pod, plan)
  {
    if plan.counts != map[] {
      forall i | 0 <= i < |pod.containers|
        ensures ContainerAfter(pod.containers, i, plan) == pod.containers[i] && QuietContainer(pod.containers[i], plan)
      {
        assert ContainersAfter(pod.containers, plan)[i] == pod.containers[i];
        UnchangedContainerIsQuiet(pod.containers, i, plan);
      }
      WritingChanges(pod.containers, plan);
    }
  }

  // ---------- and on the document ----------

  predicate HoldsStrings(j: Json) {
    forall key :: key in Fields(j) ==> Fields(j)[key].Str?
  }

  /** The document spells out what a round would write over it: no nulls, and the parents are there. */
  predicate Equipped(d: Json, plan: Plan) {
    && HoldsStrings(Member(Member(d, "spec"), "nodeSelector"))
    && (plan.counts != map[] ==> ContainerItems(d) != [] && EquippedResources(Member(ContainerItems(d)[0], "resources")))
    && (plan.counts != map[] && plan.injected != map[] ==> HoldsStrings(Member(Member(d, "metadata"), "annotations")))
  }

  predicate EquippedResources(resources: Json) {
    resources.Obj? && Member(resources, "requests").Obj? && Member(resources, "limits").Obj?
  }

  lemma PutSame(j: Json, key: string, value: Json)
    requires j.Obj? && key in j.fields && j.fields[key] == value
    ensures Put(j, key, value) == j
  {
    assert j.fields[key := value] == j.fields;
  }

  lemma AddNothing(j: Json, key: string)
    requires j.Obj? && Member(j, key).Obj?
    ensures Put(j, key, Obj(Fields(Member(j, key)) + NumberFields(map[]))) == j
  {
    assert Fields(Member(j, key)) + NumberFields(map[]) == Fields(Member(j, key));
    PutSame(j, key, Member(j, key));
  }

  lemma WritesNothing(resources: Json, containers: seq<Container>, plan: Plan)
    requires containers != [] && WrittenResources(containers, plan) == {} && EquippedResources(resources)
    ensures NewResources(resources, containers, plan) == resources
  {
    assert NewRequests(containers, plan) == map[] && NewLimits(containers, plan) == map[];
    AddNothing(resources, "requests");
    AddNothing(resources, "limits");
  }

  lemma QuietContainerStays(items: seq<Json>, i: nat, plan: Plan)
    requires i < |items| && IsContainer(items[i]) && QuietContainer(ContainerOf(items[i]), plan)
    requires i == 0 ==> WrittenResources(ContainersOf(items), plan) == {} && EquippedResources(Member(items[0], "resources"))
    ensures NewContainer(items, i, plan) == items[i]
  {
    var c := items[i];
    assert WithEnv(c, plan) == c && WithMount(c) == c;
    if i == 0 {
      WritesNothing(Member(c, "resources"), ContainersOf(items), plan);
      PutSame(c, "resources", Member(c, "resources"));
    }
  }

  lemma QuietContainersStay(d: Json, plan: Plan)
    requires WellTyped(d) && Equipped(d, plan) && Quiet(PodOf(d), plan) && plan.counts != map[]
    ensures NewContainers(ContainerItems(d), plan) == ContainerItems(d)
  {
    var items := ContainerItems(d);
    forall i | 0 <= i < |items| ensures NewContainer(items, i, plan) == items[i] {
      assert PodOf(d).containers[i] == ContainerOf(items[i]);
      QuietContainerStays(items, i, plan);
    }
  }

  /** Writing into a member what is read from it changes nothing. */
  lemma RewritingStays(d: Json, outer: string, inner: string, strings: map<string, string>)
    requires d.Obj? && HoldsStrings(Member(Member(d, outer), inner))
    requires strings == Strings(Member(Member(d, outer), inner)) && strings != map[]
    ensures Put(d, outer, Put(Member(d, outer), inner, Obj(StringFields(strings)))) == d
  {
    var key :| key in strings;
    StringsReadBack(Member(Member(d, outer), inner));
    PutSame(Member(d, outer), inner, Obj(StringFields(strings)));
    PutSame(d, outer, Member(d, outer));
  }

  lemma SelectorStays(d: Json, plan: Plan)
    requires WellTyped(d) && Equipped(d, plan) && Quiet(PodOf(d), plan)
    ensures WithNodeSelector(d, PodOf(d), plan.desired) == d
  {
    if PodOf(d).nodeSelector != map[] {
      RewritingStays(d, "spec", "nodeSelector", PodOf(d).nodeSelector);
    }
  }

  lemma AnnotationsStay(d: Json, plan: Plan)
    requires WellTyped(d) && Equipped(d, plan) && Quiet(PodOf(d), plan) && plan.counts != map[]
    ensures WithAnnotations(d, PodOf(d), plan.injected) == d
  {
    if plan.injected != map[] {
      var key :| key in plan.injected;
      assert key in PodOf(d).annotations + plan.injected;
      RewritingStays(d, "metadata", "annotations", PodOf(d).annotations);
    }
  }

  lemma ContainersRewritten(d: Json)
    requires d.Obj? && ContainerItems(d) != []
    ensures Put(Member(d, "spec"), "containers", Arr(ContainerItems(d))) == Member(d, "spec")
    ensures Put(d, "spec", Member(d, "spec")) == d
  {
    PutSame(Member(d, "spec"), "containers", Arr(ContainerItems(d)));
    PutSame(d, "spec", Member(d, "spec"));
  }

  lemma QuietStays(d: Json, plan: Plan, list: seq<HugepageResource>)
    requires WellTyped(d) && Equipped(d, plan) && Quiet(PodOf(d), plan)
    ensures Transform(d, plan, list) == d
  {
    if plan.counts != map[] {
      QuietContainersStay(d, plan);
      ContainersRewritten(d);
      AnnotationsStay(d, plan);
    }
    SelectorStays(d, plan);
  }

  /** On an equipped document the transform changes nothing exactly if the pod is quiet. */
  lemma QuietExactly(d: Json, plan: Plan, list: seq<HugepageResource>)
    requires WellTyped(d) && Equipped(d, plan) && Positive(plan.counts)
    ensures Transform(d, plan, list) == d <==> Quiet(PodOf(d), plan)
  {
    if Transform(d, plan, list) == d {
      TransformDecodes(d, plan, list);
      UnchangedIsQuiet(PodOf(d), plan);
    } else if Quiet(PodOf(d), plan) {
      QuietStays(d, plan, list);
    }
  }

  // ---------- what one round leaves behind ----------

  /** The parts of a finished document that a second round would write again. */
  predicate Settled(d: Json, items: seq<Json>, annotations: map<string, string>, selector: map<string, string>, plan: Plan) {
    var spec, metadata := Member(d, "spec"), Member(d, "metadata");
    && d.Obj? && spec.Obj? && Member(spec, "containers") == Arr(items)
    && (plan.injected != map[] ==> metadata.Obj? && Member(metadata, "annotations") == Obj(StringFields(annotations)))
    && (selector != map[] ==> Member(spec, "nodeSelector") == Obj(StringFields(selector)))
  }

  lemma FinishedSettled(doc: Json, items: seq<Json>, pod: Pod, plan: Plan, list: seq<HugepageResource>)
    requires doc.Obj?
    ensures Settled(Finished(doc, items, pod, plan, list), items, MergedAnnotations(pod, plan.injected), pod.nodeSelector + plan.desired, plan)
  {
  }

  lemma SettledItems(d: Json, items: seq<Json>, annotations: map<string, string>, selector: map<string, string>, plan: Plan)
    requires Settled(d, items, annotations, selector, plan)
    ensures ContainerItems(d) == items
  {
  }

  lemma SelectorHoldsStrings(doc: Json, plan: Plan, list: seq<HugepageResource>)
    requires WellTyped(doc)
    ensures HoldsStrings(Member(Member(Transform(doc, plan, list), "spec"), "nodeSelector"))
  {
    var d, pod := Transform(doc, plan, list), PodOf(doc);
    TransformDecodes(doc, plan, list);
    if pod.nodeSelector + plan.desired == map[] {
      assert Strings(Member(Member(d, "spec"), "nodeSelector")) == map[];
      assert forall key :: key in Fields(Member(Member(d, "spec"), "nodeSelector")) ==>
          key in Strings(Member(Member(d, "spec"), "nodeSelector"));
    } else if plan.counts != map[] {
      FinishedSettled(doc, NewContainers(ContainerItems(doc), plan), pod, plan, list);
    }
  }

  lemma FirstResourcesEquipped(items: seq<Json>, plan: Plan)
    requires items != []
    ensures EquippedResources(Member(NewContainer(items, 0, plan), "resources"))
  {
    var c := WithMount(WithEnv(items[0], plan));
    var resources := Member(c, "resources");
    var after := NewResources(resources, ContainersOf(items), plan);
    assert Member(WithResources(c, ContainersOf(items), plan), "resources") == after;
    assert Member(after, "requests").Obj? && Member(after, "limits").Obj?;
  }

  /** One round equips the document for the next one with the same injections. */
  lemma RoundEquips(doc: Json, plan: Plan, list: seq<HugepageResource>, next: Plan)
    requires WellTyped(doc) && (plan.counts != map[] ==> PodOf(doc).containers != [])
    requires next.injected == plan.injected && (next.counts != map[] ==> plan.counts != map[])
    ensures Equipped(Transform(doc, plan, list), next)
  {
    SelectorHoldsStrings(doc, plan, list);
    if next.counts != map[] {
      var pod, items := PodOf(doc), ContainerItems(doc);
      var news := NewContainers(items, plan);
      FinishedSettled(doc, news, pod, plan, list);
      SettledItems(Transform(doc, plan, list), news, MergedAnnotations(pod, plan.injected), pod.nodeSelector + plan.desired, plan);
      FirstResourcesEquipped(items, plan);
      assert news[0] == NewContainer(items, 0, plan);
    }
  }

  // ---------- the handler, invoked again ----------

  /** The verdict on the pod that the first patch made. */
  function SecondVerdict(c: Case): Verdict {
    Judge(PodAfter(PodOf(c.doc), PlanIn(c)), c.namespace, c.injections, c.env)
  }

  /** The same request for the changed pod, with its own visiting orders. */
  function Again(c: Case, after: Json, order: EmissionOrder): Case {
    c.(doc := after, order := order)
  }

  lemma SelectionStays(pod: Pod, plan: Plan, injections: seq<Injection>, key: string)
    ensures SelectionText(key, pod, injections).Some? ==> SelectionText(key, PodAfter(pod, plan), injections).Some?
    ensures plan.counts == map[] ==> SelectionText(key, PodAfter(pod, plan), injections) == SelectionText(key, pod, injections)
  {
  }

  /** A pod that was judged once is not skipped the second time; without counts, it is judged the same. */
  lemma SecondVerdictRange(c: Case)
    requires Judge(PodOf(c.doc), c.namespace, c.injections, c.env).Proceed?
    ensures !SecondVerdict(c).Skip?
    ensures PlanIn(c).counts == map[] ==> SecondVerdict(c) == Proceed(FoundIn(c))
  {
    var pod, plan := PodOf(c.doc), PlanIn(c);
    SelectionStays(pod, plan, c.injections, NETWORKS_KEY);
    SelectionStays(pod, plan, c.injections, DEFAULT_NETWORK_KEY);
    if plan.counts == map[] {
      JudgedByTexts(PodAfter(pod, plan), pod, c.namespace, c.injections, c.injections, c.env);
    }
  }

  lemma AcceptedIsAllowed(pod: Pod, namespace: string, injections: seq<Injection>, env: Environment,
                          order: EmissionOrder, response: Response, found: seq<Option<map<string, string>>>)
    requires AnswersPod(pod, namespace, injections, env, order, response)
    requires AllAccepted(found) && Judge(pod, namespace, injections, env) == Proceed(found)
    requires PlanFor(found, injections, env).counts != map[] ==> pod.containers != []
    ensures response.Allowed?
  {
  }

  lemma JudgedAccepted(pod: Pod, namespace: string, injections: seq<Injection>, env: Environment)
    ensures var verdict := Judge(pod, namespace, injections, env);
            verdict.Proceed? ==> AllAccepted(verdict.found)
  {
  }

  lemma SecondAdmitted(c: Case, patch: seq<Op>, after: Json, order: EmissionOrder, response: Response)
    requires Admits(c, patch) && Apply(c.doc, patch) == Some(after)
    requires AnswersPod(PodOf(after), c.namespace, c.injections, c.env, order, response)
    requires SecondVerdict(c).Proceed?
    ensures Proceeds(c) && AllAccepted(SecondVerdict(c).found) && response.Allowed?
    ensures var next := PlanFor(SecondVerdict(c).found, c.injections, c.env);
            && (next.counts != map[] ==> PlanIn(c).counts != map[])
            && Admits(Again(c, after, order), response.patch)
            && PlanIn(Again(c, after, order)) == next
  {
    PatchedPod(c, patch, after);
    SecondVerdictRange(c);
    var found := SecondVerdict(c).found;
    JudgedAccepted(PodOf(after), c.namespace, c.injections, c.env);
    AcceptedIsAllowed(PodOf(after), c.namespace, c.injections, c.env, order, response, found);
  }

  lemma SecondParents(c: Case, patch: seq<Op>, after: Json, next: Plan)
    requires Admits(c, patch) && Apply(c.doc, patch) == Some(after)
    requires next.counts != map[] ==> PlanIn(c).counts != map[]
    requires PlanIn(c).counts == map[] ==> next.desired == PlanIn(c).desired
    ensures Proceeds(c) && HasParents(after, next)
  {
    PatchYieldsTransform(c, patch);
    var plan, pod := PlanIn(c), PodOf(c.doc);
    if plan.counts != map[] {
      var news := NewContainers(ContainerItems(c.doc), plan);
      FinishedSettled(c.doc, news, pod, plan, ListIn(c));
      SettledItems(after, news, MergedAnnotations(pod, plan.injected), pod.nodeSelector + plan.desired, plan);
      FirstResourcesEquipped(ContainerItems(c.doc), plan);
      assert news[0] == NewContainer(ContainerItems(c.doc), 0, plan);
    } else if plan.desired != map[] {
      var key :| key in plan.desired;
      assert key in pod.nodeSelector + plan.desired;
    }
  }

  lemma SecondPatch(c: Case, patch: seq<Op>, after: Json, order: EmissionOrder, response: Response)
    requires Admits(c, patch) && Apply(c.doc, patch) == Some(after)
    requires AnswersPod(PodOf(after), c.namespace, c.injections, c.env, order, response)
    requires SecondVerdict(c).Proceed?
    ensures Proceeds(c) && Proceeds(Again(c, after, order)) && response.Allowed?
    ensures Apply(after, response.patch) == Some(Transform(after, PlanIn(Again(c, after, order)), ListIn(Again(c, after, order))))
  {
    SecondAdmitted(c, patch, after, order, response);
    SecondVerdictRange(c);
    SecondParents(c, patch, after, PlanIn(Again(c, after, order)));
    PatchYieldsTransform(Again(c, after, order), response.patch);
  }

  lemma PlansPositive(found: seq<Option<map<string, string>>>, injections: seq<Injection>, env: Environment)
    requires AllAccepted(found)
    ensures Positive(PlanFor(found, injections, env).counts)
  {
    TallyPositive(found, env.resourceKeys);
  }

  lemma SecondEquipped(c: Case, patch: seq<Op>, after: Json, next: Plan)
    requires Admits(c, patch) && Apply(c.doc, patch) == Some(after)
    requires next.injected == MergeInjected(c.injections) && (next.counts != map[] ==> PlanIn(c).counts != map[])
    ensures WellTyped(after) && PodOf(after) == PodAfter(PodOf(c.doc), PlanIn(c)) && Equipped(after, next)
  {
    PatchYieldsTransform(c, patch);
    PatchedPod(c, patch, after);
    RoundEquips(c.doc, PlanIn(c), ListIn(c), next);
  }

  /**
   Invoked again on the patched pod, with the same networks and injections: a selection that has
   become malformed is a bad request, a network that is now refused denies the pod, and otherwise
   the answer is a patch that applies. That patch leaves the document as it is exactly if the
   changed pod already has whatever the second plan asks for.
   */
  lemma ReinvocationExact(c: Case, patch: seq<Op>, after: Json, order: EmissionOrder, response: Response)
    requires Admits(c, patch) && Apply(c.doc, patch) == Some(after)
    requires AnswersPod(PodOf(after), c.namespace, c.injections, c.env, order, response)
    ensures match SecondVerdict(c)
            case Skip => false
            case Malformed => response == BadRequest
            case Refuse => response == Denied
            case Proceed(found) =>
              && AllAccepted(found) && response.Allowed? && Apply(after, response.patch).Some?
              && (Apply(after, response.patch) == Some(after) <==>
                  Quiet(PodAfter(PodOf(c.doc), PlanIn(c)), PlanFor(found, c.injections, c.env)))
  {
    PatchedPod(c, patch, after);
    SecondVerdictRange(c);
    if SecondVerdict(c).Proceed? {
      var again := Again(c, after, order);
      SecondAdmitted(c, patch, after, order, response);
      SecondPatch(c, patch, after, order, response);
      SecondEquipped(c, patch, after, PlanIn(again));
      PlansPositive(SecondVerdict(c).found, c.injections, c.env);
      QuietExactly(after, PlanIn(again), ListIn(again));
    }
  }

  // ---------- injections that keep the selected networks ----------

  /** No matching injection changes a network annotation that the pod set itself. */
  predicate KeepsNetworks(pod: Pod, injections: seq<Injection>) {
    forall key :: (key == NETWORKS_KEY || key == DEFAULT_NETWORK_KEY) && key in pod.annotations ==>
      var first := FirstInjected(injections, key);
      first.None? || first.value == pod.annotations[key]
  }

  lemma SelectionKept(pod: Pod, plan: Plan, injections: seq<Injection>, key: string)
    requires KeepsNetworks(pod, injections) && plan.injected == MergeInjected(injections)
    requires key == NETWORKS_KEY || key == DEFAULT_NETWORK_KEY
    ensures SelectionText(key, PodAfter(pod, plan), injections) == SelectionText(key, pod, injections)
  {
    MergedIsFirst(injections, key);
  }

  lemma KeptVerdict(c: Case)
    requires Judge(PodOf(c.doc), c.namespace, c.injections, c.env).Proceed?
    requires KeepsNetworks(PodOf(c.doc), c.injections)
    ensures SecondVerdict(c) == Proceed(FoundIn(c))
  {
    var pod, plan := PodOf(c.doc), PlanIn(c);
    SelectionKept(pod, plan, c.injections, NETWORKS_KEY);
    SelectionKept(pod, plan, c.injections, DEFAULT_NETWORK_KEY);
    JudgedByTexts(PodAfter(pod, plan), pod, c.namespace, c.injections, c.injections, c.env);
  }

  predicate WritesHugepages(containers: seq<Container>, plan: Plan) {
    exists name :: name in WrittenResources(containers, plan) && HugepageSize(name).Some?
  }

  /**
   Exposing hugepages asks for container 0's name: the first round sees the hugepages that
   container 0 had, the second one also those that the first round wrote.
   */
  predicate NameSettled(containers: seq<Container>, plan: Plan)
    requires containers != []
  {
    plan.hugepages ==>
      || HasHugepages(containers[0])
      || CONTAINER_NAME in containers[0].env
      || !WritesHugepages(containers, plan)
  }

  /** When one round leaves nothing for a second one with the same plan, told from the pod before it. */
  predicate Stable(pod: Pod, plan: Plan)
    requires plan.counts != map[] ==> pod.containers != []
  {
    plan.counts == map[] || (!plan.honor && NameSettled(pod.containers, plan))
  }

  /** Everything counted is named after the first round, so nothing is left to write. */
  lemma NothingLeft(containers: seq<Container>, plan: Plan)
    requires containers != [] && !plan.honor
    ensures WrittenResources(ContainersAfter(containers, plan), plan) == {}
  {
    var afters := ContainersAfter(containers, plan);
    forall name | name in plan.counts ensures NamedByAny(afters, name) {
      if NamedByAny(containers, name) {
        var i :| 0 <= i < |containers| && (name in containers[i].limits || name in containers[i].requests);
        assert name in afters[i].limits || name in afters[i].requests;
      } else {
        assert name in NewLimits(containers, plan);
        assert name in afters[0].limits;
      }
    }
  }

  lemma HugepagesKept(containers: seq<Container>, plan: Plan, i: nat)
    requires i < |containers| && (i == 0 ==> !WritesHugepages(containers, plan))
    ensures HasHugepages(ContainerAfter(containers, i, plan)) ==> HasHugepages(containers[i])
  {
    var c, after := containers[i], ContainerAfter(containers, i, plan);
    forall name, kind | name in QuantitiesOf(after, kind) && Exposed(after, kind, name)
      ensures name in QuantitiesOf(c, kind) && Exposed(c, kind, name)
    {
      assert i == 0 ==> name !in WrittenResources(containers, plan);
    }
    if HasHugepages(after) {
      if name :| name in after.requests && Exposed(after, Requests, name) {
        assert name in QuantitiesOf(after, Requests);
        assert name in QuantitiesOf(c, Requests) && Exposed(c, Requests, name);
      } else if name :| name in after.limits && Exposed(after, Limits, name) {
        assert name in QuantitiesOf(after, Limits);
        assert name in QuantitiesOf(c, Limits) && Exposed(c, Limits, name);
      }
    }
  }

  /** A container whose hugepages are exposed has its name in the environment after one round. */
  lemma NameThere(containers: seq<Container>, plan: Plan, i: nat)
    requires i < |containers| && NameSettled(containers, plan) && plan.hugepages
    ensures var after := ContainerAfter(containers, i, plan);
            HasHugepages(after) ==> CONTAINER_NAME in after.env
  {
    if i > 0 || !WritesHugepages(containers, plan) { HugepagesKept(containers, plan, i); }
  }

  lemma StableIsQuiet(pod: Pod, plan: Plan)
    requires plan.counts != map[] && pod.containers != [] && Stable(pod, plan)
    ensures Quiet(PodAfter(pod, plan), plan)
  {
    var after := PodAfter(pod, plan);
    NothingLeft(pod.containers, plan);
    forall i | 0 <= i < |after.containers| ensures QuietContainer(after.containers[i], plan) {
      if plan.hugepages { NameThere(pod.containers, plan, i); }
    }
    assert after.annotations + plan.injected == after.annotations;
    assert after.nodeSelector + plan.desired == after.nodeSelector;
  }

  lemma WrittenHugepageShows(containers: seq<Container>, plan: Plan, name: string)
    requires containers != [] && !plan.honor
    requires name in WrittenResources(containers, plan) && HugepageSize(name).Some? && plan.counts[name] > 0
    ensures HasHugepages(ContainerAfter(containers, 0, plan))
  {
    var after := ContainerAfter(containers, 0, plan);
    assert name in NewRequests(containers, plan);
    assert Exposed(after, Requests, name);
  }

  lemma UnstableIsNotQuiet(pod: Pod, plan: Plan)
    requires plan.counts != map[] && pod.containers != [] && Positive(plan.counts) && !Stable(pod, plan)
    ensures !Quiet(PodAfter(pod, plan), plan)
  {
    var after := PodAfter(pod, plan);
    if plan.honor {
      assert WrittenResources(after.containers, plan) == plan.counts.Keys;
    } else {
      var name :| name in WrittenResources(pod.containers, plan) && HugepageSize(name).Some?;
      WrittenHugepageShows(pod.containers, plan, name);
      assert !QuietContainer(after.containers[0], plan);
    }
  }

  lemma StableExactly(pod: Pod, plan: Plan)
    requires Positive(plan.counts) && (plan.counts != map[] ==> pod.containers != [])
    ensures Quiet(PodAfter(pod, plan), plan) <==> Stable(pod, plan)
  {
    if plan.counts == map[] {
      assert pod.nodeSelector + plan.desired + plan.desired == pod.nodeSelector + plan.desired;
    } else if Stable(pod, plan) {
      StableIsQuiet(pod, plan);
    } else {
      UnstableIsNotQuiet(pod, plan);
    }
  }

  /** The declarative transform is idempotent exactly where it is stable. */
  lemma TransformFixed(doc: Json, plan: Plan, list: seq<HugepageResource>, list2: seq<HugepageResource>)
    requires WellTyped(doc) && Positive(plan.counts) && (plan.counts != map[] ==> PodOf(doc).containers != [])
    ensures Transform(Transform(doc, plan, list), plan, list2) == Transform(doc, plan, list) <==> Stable(PodOf(doc), plan)
  {
    var d := Transform(doc, plan, list);
    TransformDecodes(doc, plan, list);
    RoundEquips(doc, plan, list, plan);
    QuietExactly(d, plan, list2);
    StableExactly(PodOf(doc), plan);
  }

  /**
   If no injection changes the pod's own network annotations, or nothing was counted, the second
   invocation is answered with a patch that applies. It changes nothing exactly when nothing was
   counted, or existing resources are not honored and the first round did not bring container 0
   its first hugepages while its name is still missing.
   */
  lemma KeptNetworksExact(c: Case, patch: seq<Op>, after: Json, order: EmissionOrder, response: Response)
    requires Admits(c, patch) && Apply(c.doc, patch) == Some(after)
    requires AnswersPod(PodOf(after), c.namespace, c.injections, c.env, order, response)
    requires PlanIn(c).counts == map[] || KeepsNetworks(PodOf(c.doc), c.injections)
    ensures Proceeds(c) && response.Allowed? && Apply(after, response.patch).Some?
    ensures Apply(after, response.patch) == Some(after) <==> Stable(PodOf(c.doc), PlanIn(c))
  {
    AdmittedProceeds(c, patch);
    SecondVerdictRange(c);
    if PlanIn(c).counts != map[] { KeptVerdict(c); }
    ReinvocationExact(c, patch, after, order, response);
    PlansPositive(FoundIn(c), c.injections, c.env);
    StableExactly(PodOf(c.doc), PlanIn(c));
  }

  // ---------- injections that replace them ----------

  /** Two networks with a resource each, in the API server only. */
  function StoreOf(a: Element, b: Element, key: string, resourceA: string, resourceB: string): Store {
    map[NadName(a.namespace, a.name) := Some(map[key := resourceA]), NadName(b.namespace, b.name) := Some(map[key := resourceB])]
  }

  const BARE_CONTAINER := Obj(map["name" := Str("app"), "resources" := Obj(map[])])

  const BARE_SPEC := Obj(map["containers" := Arr([BARE_CONTAINER])])

  function LabelledMetadata(annotation: string): Json {
    Obj(map["labels" := Obj(map["inject" := Str("true")]), "annotations" := Obj(map[NETWORKS_KEY := Str(annotation)])])
  }

  function LabelledPod(annotation: string): Json {
    Obj(map["metadata" := LabelledMetadata(annotation), "spec" := BARE_SPEC])
  }

  /** The pod selects network a; the injection its label asks for selects network b instead. */
  function ReplacingCase(a: Element, b: Element, key: string, resourceA: string, resourceB: string, order: EmissionOrder): Case {
    Case(LabelledPod(Print(a)), a.namespace, [Injection("add", ANNOTATIONS_PATH, Some(map[NETWORKS_KEY := Print(b)]))],
         Environment(map[], StoreOf(a, b, key, resourceA, resourceB), [key], false, false, text => None), order)
  }

  function BarePod(annotation: string): Pod {
    Pod(map["inject" := "true"], map[NETWORKS_KEY := annotation], map[], [], [Container("app", map[], map[], [], [])])
  }

  lemma BareContainerReads()
    ensures ContainerOf(BARE_CONTAINER) == Container("app", map[], map[], [], [])
    ensures IsContainer(BARE_CONTAINER) && Member(BARE_CONTAINER, "resources").Obj? && IsText(Member(BARE_CONTAINER, "name"))
  {
  }

  lemma BareSpecReads()
    ensures Member(BARE_SPEC, "containers") == Arr([BARE_CONTAINER])
    ensures Member(BARE_SPEC, "nodeSelector") == Null && Member(BARE_SPEC, "volumes") == Null
  {
  }

  lemma LabelledMetadataReads(annotation: string)
    ensures var metadata := LabelledMetadata(annotation);
            && Strings(Member(metadata, "labels")) == map["inject" := "true"] && IsStrings(Member(metadata, "labels"))
            && Strings(Member(metadata, "annotations")) == map[NETWORKS_KEY := annotation] && IsStrings(Member(metadata, "annotations"))
            && Member(metadata, "namespace") == Null && Member(metadata, "ownerReferences") == Null
  {
    var metadata := LabelledMetadata(annotation);
    assert Member(metadata, "labels") == Obj(map["inject" := Str("true")]);
    assert Member(metadata, "annotations") == Obj(map[NETWORKS_KEY := Str(annotation)]);
  }

  lemma LabelledPodReads(annotation: string)
    ensures var doc := LabelledPod(annotation);
            && WellTyped(doc) && PodOf(doc) == BarePod(annotation)
            && Member(doc, "spec").Obj? && ContainerItems(doc) == [BARE_CONTAINER] && Member(BARE_CONTAINER, "resources").Obj?
  {
    var doc := LabelledPod(annotation);
    BareContainerReads();
    BareSpecReads();
    LabelledMetadataReads(annotation);
    assert Member(doc, "metadata") == LabelledMetadata(annotation) && Member(doc, "spec") == BARE_SPEC;
    assert PodOf(doc).containers == [ContainerOf(BARE_CONTAINER)];
  }

  lemma KeysDiffer()
    ensures NETWORKS_KEY != DEFAULT_NETWORK_KEY
  {
    assert NETWORKS_KEY[0] != DEFAULT_NETWORK_KEY[0];
  }

  lemma SelectsPrinted(e: Element, namespace: string, decode: Decoder)
    requires Printable(e) && decode(Print(e)).None?
    ensures ElementsOf(Some(Print(e)), namespace, decode) == Some([e])
  {
    assert "" + Print(e) + "" == Print(e);
    assert PrintPadded([e], [""], [""]) == ["" + Print(e) + ""];
    PrintParseRoundTrip([e], [""], [""], namespace, decode);
    assert Print(e) != "";
  }

  lemma OneNetworkProceeds(pod: Pod, namespace: string, injections: seq<Injection>, env: Environment, e: Element,
                           annotations: map<string, string>)
    requires SelectionText(DEFAULT_NETWORK_KEY, pod, injections) == None
    requires SelectionText(NETWORKS_KEY, pod, injections) == Some(Print(e))
    requires Printable(e) && env.decode(Print(e)).None?
    requires Lookup(env.table, env.store, e.namespace, e.name) == Some(annotations) && Accepted(Some(annotations))
    ensures Judge(pod, namespace, injections, env) == Proceed([Some(annotations)])
  {
    SelectsPrinted(e, namespace, env.decode);
    assert FoundAll([e], env.table, env.store) == [Some(annotations)];
    assert FoundAll([], env.table, env.store) == [];
    assert [] + [Some(annotations)] == [Some(annotations)];
  }

  lemma OneResourcePlan(key: string, resource: string, injections: seq<Injection>, env: Environment)
    requires env.resourceKeys == [key] && key != NODE_SELECTOR_KEY
    ensures AllAccepted([Some(map[key := resource])])
    ensures PlanFor([Some(map[key := resource])], injections, env) ==
            Plan(map[resource := 1], map[], MergeInjected(injections), env.honor, env.hugepages)
  {
    var annotations := map[key := resource];
    assert [Some(annotations)][..0] == [] && [key][..0] == [];
    assert CountInto(map[], annotations, []) == map[];
    assert CountInto(map[], annotations, [key]) == map[resource := 1];
    assert TallyOf(NOTHING, [], [key]) == NOTHING;
    assert Select(map[], annotations) == map[];
  }

  lemma OneInjection(annotations: map<string, string>, key: string)
    ensures var injections := [Injection("add", ANNOTATIONS_PATH, Some(annotations))];
            && MergeInjected(injections) == annotations
            && FirstInjected(injections, key) == if key in annotations then Some(annotations[key]) else None
  {
    var injections := [Injection("add", ANNOTATIONS_PATH, Some(annotations))];
    assert injections[..0] == [];
    assert annotations + map[] == annotations;
  }

  lemma Overlaid(key: string, under: string, over: string)
    ensures map[key := under] + map[key := over] == map[key := over]
  {
  }

  predicate Replaces(a: Element, b: Element, key: string, resourceA: string, resourceB: string) {
    && Printable(a) && Printable(b) && NadName(a.namespace, a.name) != NadName(b.namespace, b.name)
    && resourceA != resourceB && key != NODE_SELECTOR_KEY
  }

  lemma FirstRoundReplaces(a: Element, b: Element, key: string, resourceA: string, resourceB: string, order: EmissionOrder)
    requires Replaces(a, b, key, resourceA, resourceB)
    ensures var c := ReplacingCase(a, b, key, resourceA, resourceB, order);
            && WellTyped(c.doc) && PodOf(c.doc) == BarePod(Print(a))
            && Judge(PodOf(c.doc), c.namespace, c.injections, c.env) == Proceed([Some(map[key := resourceA])])
            && PlanIn(c) == Plan(map[resourceA := 1], map[], map[NETWORKS_KEY := Print(b)], false, false)
            && HasParents(c.doc, PlanIn(c))
  {
    var c := ReplacingCase(a, b, key, resourceA, resourceB, order);
    LabelledPodReads(Print(a));
    KeysDiffer();
    OneInjection(map[NETWORKS_KEY := Print(b)], DEFAULT_NETWORK_KEY);
    OneResourcePlan(key, resourceA, c.injections, c.env);
    OneNetworkProceeds(PodOf(c.doc), c.namespace, c.injections, c.env, a, map[key := resourceA]);
  }

  lemma SecondRoundReplaces(a: Element, b: Element, key: string, resourceA: string, resourceB: string, order: EmissionOrder)
    requires Replaces(a, b, key, resourceA, resourceB)
    ensures var c := ReplacingCase(a, b, key, resourceA, resourceB, order);
            var plan := Plan(map[resourceA := 1], map[], map[NETWORKS_KEY := Print(b)], false, false);
            Judge(PodAfter(BarePod(Print(a)), plan), c.namespace, c.injections, c.env) == Proceed([Some(map[key := resourceB])])
  {
    var c := ReplacingCase(a, b, key, resourceA, resourceB, order);
    var plan := Plan(map[resourceA := 1], map[], map[NETWORKS_KEY := Print(b)], false, false);
    var pod := PodAfter(BarePod(Print(a)), plan);
    KeysDiffer();
    OneInjection(map[NETWORKS_KEY := Print(b)], DEFAULT_NETWORK_KEY);
    OneResourcePlan(key, resourceB, c.injections, c.env);
    Overlaid(NETWORKS_KEY, Print(a), Print(b));
    assert resourceA in plan.counts;
    assert pod.annotations == map[NETWORKS_KEY := Print(b)];
    OneNetworkProceeds(pod, c.namespace, c.injections, c.env, b, map[key := resourceB]);
  }

  lemma OtherResourceIsMissing(a: string, resourceA: string, resourceB: string, injected: map<string, string>)
    requires resourceA != resourceB
    ensures var first := Plan(map[resourceA := 1], map[], injected, false, false);
            !Quiet(PodAfter(BarePod(a), first), Plan(map[resourceB := 1], map[], injected, false, false))
  {
    var first, next := Plan(map[resourceA := 1], map[], injected, false, false), Plan(map[resourceB := 1], map[], injected, false, false);
    var containers := PodAfter(BarePod(a), first).containers;
    assert resourceA in first.counts && resourceB in next.counts;
    assert containers == ContainersAfter(BarePod(a).containers, first);
    assert |BarePod(a).containers| == 1;
    assert containers[0] == ContainerAfter(BarePod(a).containers, 0, first);
    assert resourceB !in WrittenResources(BarePod(a).containers, first);
    assert resourceB !in NewLimits(BarePod(a).containers, first) && resourceB !in NewRequests(BarePod(a).containers, first);
    assert resourceB !in containers[0].requests && resourceB !in containers[0].limits;
    assert resourceB in WrittenResources(containers, next);
  }

  /** Whatever a second invocation answers, it is a patch that applies and changes the pod. */
  ghost predicate Disturbed(c: Case, after: Json) {
    forall again, response :: AnswersPod(PodOf(after), c.namespace, c.injections, c.env, again, response) ==>
      response.Allowed? && Apply(after, response.patch).Some? && Apply(after, response.patch) != Some(after)
  }

  lemma ReplacedDisturbs(a: Element, b: Element, key: string, resourceA: string, resourceB: string, order: EmissionOrder,
                         patch: seq<Op>, after: Json)
    requires Replaces(a, b, key, resourceA, resourceB)
    requires var c := ReplacingCase(a, b, key, resourceA, resourceB, order); Admits(c, patch) && Apply(c.doc, patch) == Some(after)
    ensures Disturbed(ReplacingCase(a, b, key, resourceA, resourceB, order), after)
  {
    var c := ReplacingCase(a, b, key, resourceA, resourceB, order);
    FirstRoundReplaces(a, b, key, resourceA, resourceB, order);
    SecondRoundReplaces(a, b, key, resourceA, resourceB, order);
    OneResourcePlan(key, resourceB, c.injections, c.env);
    OneInjection(map[NETWORKS_KEY := Print(b)], NETWORKS_KEY);
    OtherResourceIsMissing(Print(a), resourceA, resourceB, map[NETWORKS_KEY := Print(b)]);
    forall again, response | AnswersPod(PodOf(after), c.namespace, c.injections, c.env, again, response)
      ensures response.Allowed? && Apply(after, response.patch).Some? && Apply(after, response.patch) != Some(after)
    {
      ReinvocationExact(c, patch, after, again, response);
    }
  }

  lemma PatchedSomehow(c: Case, annotation: string, found: seq<Option<map<string, string>>>)
    returns (order: EmissionOrder, patch: seq<Op>, after: Json)
    requires WellTyped(c.doc) && PodOf(c.doc) == BarePod(annotation) && HasParents(c.doc, PlanIn(c))
    requires Judge(PodOf(c.doc), c.namespace, c.injections, c.env) == Proceed(found)
    ensures Admits(c.(order := order), patch) && Apply(c.doc, patch) == Some(after)
  {
    assert "inject" in BarePod(annotation).labels;
    order, patch := SomePatch(c);
    after := Apply(c.doc, patch).value;
  }

  lemma ReplacingPatch(a: Element, b: Element, key: string, resourceA: string, resourceB: string)
    returns (order: EmissionOrder, patch: seq<Op>, after: Json)
    requires Replaces(a, b, key, resourceA, resourceB)
    ensures var c := ReplacingCase(a, b, key, resourceA, resourceB, order);
            Admits(c, patch) && Apply(c.doc, patch) == Some(after)
  {
    var none := EmissionOrder([], []);
    FirstRoundReplaces(a, b, key, resourceA, resourceB, none);
    order, patch, after := PatchedSomehow(ReplacingCase(a, b, key, resourceA, resourceB, none), Print(a), [Some(map[key := resourceA])]);
  }

  lemma ReplacingStable(a: Element, b: Element, key: string, resourceA: string, resourceB: string, order: EmissionOrder)
    requires Replaces(a, b, key, resourceA, resourceB)
    ensures var c := ReplacingCase(a, b, key, resourceA, resourceB, order);
            PodOf(c.doc).containers != [] && Stable(PodOf(c.doc), PlanIn(c))
  {
    FirstRoundReplaces(a, b, key, resourceA, resourceB, order);
  }

  /**
   A family of inputs on which the second invocation does change the pod although the first plan
   is stable: an injection replaces the network a that the pod selects by a network b with
   another resource, so the first round requests a's resource and the second one adds b's.
   */
  lemma ReplacedNetworkDisturbs(a: Element, b: Element, key: string, resourceA: string, resourceB: string)
    returns (c: Case, patch: seq<Op>, after: Json)
    requires Replaces(a, b, key, resourceA, resourceB)
    ensures c == ReplacingCase(a, b, key, resourceA, resourceB, c.order)
    ensures Admits(c, patch) && Apply(c.doc, patch) == Some(after)
    ensures PodOf(c.doc).containers != [] && Stable(PodOf(c.doc), PlanIn(c))
    ensures Disturbed(c, after)
  {
    var order;
    order, patch, after := ReplacingPatch(a, b, key, resourceA, resourceB);
    c := ReplacingCase(a, b, key, resourceA, resourceB, order);
    ReplacingStable(a, b, key, resourceA, resourceB, order);
    ReplacedDisturbs(a, b, key, resourceA, resourceB, order, patch, after);
  }
}
