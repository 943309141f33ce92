/**
 What an admitted pod becomes: the handler's patch, applied by the API server as RFC 6902
 prescribes, against the pod's own document.
 */
module Admission {
  import opened Wrappers
  import opened JsonPatch
  import opened Orders
  import opened PodView
  import opened Hugepages
  import opened HugepageExposure
  import opened PatchPlan
  import opened PodTransform
  import opened PatchMeaning
  import opened Requests
  import opened Networks
  import opened Injections
  import opened Decision

  /** One admission: the request, the matching injections, the environment and the visiting orders. */
  datatype Case = Case(doc: Json, namespace: string, injections: seq<Injection>, env: Environment, order: EmissionOrder)

  /** The handler answers the case with this patch. Injections match by labels, so they need some. */
  ghost predicate Admits(c: Case, patch: seq<Op>) {
    && WellTyped(c.doc)
    && (c.injections != [] ==> PodOf(c.doc).labels != map[])
    && AnswersPod(PodOf(c.doc), c.namespace, c.injections, c.env, c.order, Allowed(patch))
  }

  lemma {:induction false} MatchingNeedsLabels(table: Injections, labels: map<string, string>, order: seq<string>)
    requires forall i :: 0 <= i < |order| ==> order[i] in table
    ensures Matching(table, labels, order) != [] ==> labels != map[]
    decreases |order|
  {
    if order != [] { MatchingNeedsLabels(table, labels, order[..|order| - 1]); }
  }

  /** The lookup results of the selected networks. */
  function FoundIn(c: Case): (found: seq<Option<map<string, string>>>)
    ensures AllAccepted(found)
  {
    var verdict := Judge(PodOf(c.doc), c.namespace, c.injections, c.env);
    if verdict.Proceed? then verdict.found else []
  }

  function PlanIn(c: Case): Plan {
    PlanFor(FoundIn(c), c.injections, c.env)
  }

  /** The locations the patch writes below. The API server's documents always hold them. */
  predicate HasParents(doc: Json, plan: Plan) {
    && (plan.counts != map[] ==> ContainerItems(doc) != [] && Member(ContainerItems(doc)[0], "resources").Obj?)
    && (plan.desired != map[] ==> Member(doc, "spec").Obj?)
  }

  lemma LabelsNeedMetadata(doc: Json)
    requires WellTyped(doc) && PodOf(doc).labels != map[]
    ensures Member(doc, "metadata").Obj?
  {
    var key :| key in PodOf(doc).labels;
  }

  lemma SelectorNeedsSpec(doc: Json)
    requires WellTyped(doc) && PodOf(doc).nodeSelector != map[]
    ensures Member(doc, "spec").Obj?
  {
    var key :| key in PodOf(doc).nodeSelector;
  }

  lemma TargetEmpty(own: map<string, string>, desired: map<string, string>)
    ensures own + desired == map[] <==> own == map[] && desired == map[]
  {
    assert own + map[] == own;
    if desired != map[] {
      var key :| key in desired;
      assert key in own + desired;
    }
  }

  lemma ParentsSuffice(doc: Json, injections: seq<Injection>, plan: Plan)
    requires WellTyped(doc) && (injections != [] ==> PodOf(doc).labels != map[])
    requires plan.injected == MergeInjected(injections)
    ensures HasParents(doc, plan) <==> Applicable(doc, plan)
  {
    if injections != [] { LabelsNeedMetadata(doc); }
    if PodOf(doc).nodeSelector != map[] { SelectorNeedsSpec(doc); }
    TargetEmpty(PodOf(doc).nodeSelector, plan.desired);
  }

  ghost predicate Proceeds(c: Case) {
    && Judge(PodOf(c.doc), c.namespace, c.injections, c.env).Proceed?
    && (PlanIn(c).counts != map[] ==> PodOf(c.doc).containers != [])
    && ValidOrder(PodOf(c.doc), PlanIn(c), c.order)
  }

  lemma AllowedProceeds(pod: Pod, namespace: string, injections: seq<Injection>, env: Environment,
                        order: EmissionOrder, patch: seq<Op>)
    requires AnswersPod(pod, namespace, injections, env, order, Allowed(patch))
    ensures var verdict := Judge(pod, namespace, injections, env);
            && verdict.Proceed? && AllAccepted(verdict.found)
            && var plan := PlanFor(verdict.found, injections, env);
               && (plan.counts != map[] ==> pod.containers != [])
               && ValidOrder(pod, plan, order)
               && patch == EncodeAll(PodEdits(pod, plan, order))
  {
  }

  lemma AdmittedProceeds(c: Case, patch: seq<Op>)
    requires Admits(c, patch)
    ensures Proceeds(c) && patch == EncodeAll(PodEdits(PodOf(c.doc), PlanIn(c), c.order))
  {
    AllowedProceeds(PodOf(c.doc), c.namespace, c.injections, c.env, c.order, patch);
  }

  /** The items the new volume would publish. */
  ghost function ListIn(c: Case): seq<HugepageResource>
    requires Proceeds(c)
  {
    ExposedList(PodOf(c.doc), PlanIn(c), c.order)
  }

  lemma EncodedMeansTransform(doc: Json, plan: Plan, order: EmissionOrder, injections: seq<Injection>, patch: seq<Op>)
    requires WellTyped(doc) && (injections != [] ==> PodOf(doc).labels != map[])
    requires plan.injected == MergeInjected(injections)
    requires ValidOrder(PodOf(doc), plan, order) && (plan.counts != map[] ==> PodOf(doc).containers != [])
    requires patch == EncodeAll(PodEdits(PodOf(doc), plan, order))
    ensures Apply(doc, patch) ==
            if HasParents(doc, plan) then Some(Transform(doc, plan, ExposedList(PodOf(doc), plan, order))) else None
  {
    var edits := PodEdits(PodOf(doc), plan, order);
    ApplyEncoded(doc, edits);
    EditsMeanTransform(doc, plan, order);
    ParentsSuffice(doc, injections, plan);
  }

  /**
   The emitted patch, its paths parsed as RFC 6901 pointers and its operations applied in
   order, turns the pod's document into the declarative transform; it fails only if a location
   it writes below is missing from the document.
   */
  lemma PatchYieldsTransform(c: Case, patch: seq<Op>)
    requires Admits(c, patch)
    ensures Proceeds(c)
    ensures Apply(c.doc, patch) == if HasParents(c.doc, PlanIn(c)) then Some(Transform(c.doc, PlanIn(c), ListIn(c))) else None
  {
    AdmittedProceeds(c, patch);
    EncodedMeansTransform(c.doc, PlanIn(c), c.order, c.injections, patch);
  }

  /** What the handler's answer to a request is about. */
  function HandledCase(request: Request, known: Known, table: Injections, injectionOrder: seq<string>,
                       env: Environment, order: EmissionOrder): Case
    requires forall i :: 0 <= i < |injectionOrder| ==> injectionOrder[i] in table
  {
    Case(request.doc, known.namespace, Matching(table, known.pod.labels, injectionOrder), env, order)
  }

  /** The same for the handler: its patch for a document that decodes yields the transform. */
  lemma HandlerYieldsTransform(request: Request, partial: PartialDecoder, table: Injections, injectionOrder: seq<string>,
                               env: Environment, order: EmissionOrder, patch: seq<Op>)
    requires forall i :: 0 <= i < |injectionOrder| ==> injectionOrder[i] in table
    requires WellTyped(request.doc) && Deserialized(request, partial).Some?
    requires var known := Deserialized(request, partial).value;
             AnswersPod(known.pod, known.namespace, Matching(table, known.pod.labels, injectionOrder), env, order, Allowed(patch))
    ensures var c := HandledCase(request, Deserialized(request, partial).value, table, injectionOrder, env, order);
            && Admits(c, patch) && Proceeds(c)
            && Apply(c.doc, patch) == if HasParents(c.doc, PlanIn(c)) then Some(Transform(c.doc, PlanIn(c), ListIn(c))) else None
  {
    var known := Deserialized(request, partial).value;
    DecodedRefused(request, partial);
    MatchingNeedsLabels(table, known.pod.labels, injectionOrder);
    PatchYieldsTransform(HandledCase(request, known, table, injectionOrder, env, order), patch);
  }

  lemma SomeEmission(pod: Pod, plan: Plan) returns (order: EmissionOrder)
    ensures ValidOrder(pod, plan, order)
  {
    var resources := SomeOrder(WrittenResources(pod.containers, plan));
    var hugepages := SomeHugepageOrders(pod.containers);
    order := EmissionOrder(resources, hugepages);
  }

  lemma SomePatch(c: Case) returns (order: EmissionOrder, patch: seq<Op>)
    requires WellTyped(c.doc) && (c.injections != [] ==> PodOf(c.doc).labels != map[])
    requires Judge(PodOf(c.doc), c.namespace, c.injections, c.env).Proceed?
    requires PlanIn(c).counts != map[] ==> PodOf(c.doc).containers != []
    ensures Admits(c.(order := order), patch)
    ensures Apply(c.doc, patch).Some? <==> HasParents(c.doc, PlanIn(c))
  {
    order := SomeEmission(PodOf(c.doc), PlanIn(c));
    patch := EncodeAll(PodEdits(PodOf(c.doc), PlanIn(c), order));
    assert Admits(c.(order := order), patch);
    PatchYieldsTransform(c.(order := order), patch);
    assert PlanIn(c.(order := order)) == PlanIn(c);
  }

  /**
   Every pod whose networks are accepted, if it has a container whenever something was counted,
   is admitted with a patch; that patch applies if the locations it writes below are there.
   */
  lemma AcceptedIsPatched(c: Case)
    requires WellTyped(c.doc) && (c.injections != [] ==> PodOf(c.doc).labels != map[])
    requires Judge(PodOf(c.doc), c.namespace, c.injections, c.env).Proceed?
    requires PlanIn(c).counts != map[] ==> PodOf(c.doc).containers != []
    ensures exists order, patch ::
              && Admits(c.(order := order), patch)
              && (Apply(c.doc, patch).Some? <==> HasParents(c.doc, PlanIn(c)))
  {
    var order, patch := SomePatch(c);
    assert Admits(c.(order := order), patch);
  }

  /** Decoded, the patched document is the transformed pod. */
  lemma PatchedPod(c: Case, patch: seq<Op>, after: Json)
    requires Admits(c, patch) && Apply(c.doc, patch) == Some(after)
    ensures Proceeds(c) && WellTyped(after) && PodOf(after) == PodAfter(PodOf(c.doc), PlanIn(c))
  {
    PatchYieldsTransform(c, patch);
    TransformDecodes(c.doc, PlanIn(c), ListIn(c));
  }

  /**
   The rest of the document is as it was: every member outside the containers, the volumes, the
   annotations and the node selector; in the containers everything but container 0's requests
   and limits; and every list keeps what it held, in place.
   */
  lemma PatchedRest(c: Case, patch: seq<Op>, after: Json)
    requires Admits(c, patch) && Apply(c.doc, patch) == Some(after)
    ensures DocumentKept(c.doc, after)
    ensures var items, news := ContainerItems(c.doc), ContainerItems(after);
            |news| == |items| && forall i :: 0 <= i < |items| ==> ContainerKept(items[i], news[i], i == 0)
  {
    PatchYieldsTransform(c, patch);
    RestUntouched(c.doc, PlanIn(c), ListIn(c));
  }

  /** The patched pod, sent in again, is still taken to be in the same namespace. */
  lemma PatchedNamespace(c: Case, patch: seq<Op>, after: Json, request: Request, partial: PartialDecoder)
    requires Admits(c, patch) && Apply(c.doc, patch) == Some(after) && request.doc == c.doc
    requires Deserialized(request, partial).Some?
    ensures Deserialized(request.(doc := after), partial) ==
            Some(Known(PodOf(after), Deserialized(request, partial).value.namespace))
  {
    PatchedPod(c, patch, after);
    PatchedRest(c, patch, after);
    NamespaceKept(c.doc, after);
    DecodedRefused(request, partial);
  }

  lemma NamespaceKept(doc: Json, after: Json)
    requires DocumentKept(doc, after)
    ensures NamespaceOf(after) == NamespaceOf(doc)
    ensures Member(Member(after, "metadata"), "ownerReferences") == Member(Member(doc, "metadata"), "ownerReferences")
  {
    assert Member(Member(after, "metadata"), "namespace") == Member(Member(doc, "metadata"), "namespace");
  }

  /** Container by container. */
  lemma PatchedContainer(c: Case, patch: seq<Op>, after: Json, i: nat)
    requires Admits(c, patch) && Apply(c.doc, patch) == Some(after)
    requires i < |PodOf(c.doc).containers|
    ensures Proceeds(c) && |PodOf(after).containers| == |PodOf(c.doc).containers|
    ensures PodOf(after).containers[i] ==
            if PlanIn(c).counts == map[] then PodOf(c.doc).containers[i] else ContainerAfter(PodOf(c.doc).containers, i, PlanIn(c))
  {
    PatchedPod(c, patch, after);
  }

  // ---------- annotations ----------

  lemma {:induction false} MergedIsFirst(injections: seq<Injection>, key: string)
    ensures FirstInjected(injections, key) == if key in MergeInjected(injections) then Some(MergeInjected(injections)[key]) else None
    decreases |injections|
  {
    if injections != [] { MergedIsFirst(injections[..|injections| - 1], key); }
  }

  /**
   Injected and counted agree: if some resource was counted and the pod lacks a network
   annotation itself, the annotation it ends up with is the text its networks were read from.
   Every other annotation is the injected one, or else the pod's own; none is lost.
   */
  lemma AnnotationsAgree(c: Case, patch: seq<Op>, after: Json, key: string)
    requires Admits(c, patch) && Apply(c.doc, patch) == Some(after)
    ensures var before, annotations := PodOf(c.doc).annotations, PodOf(after).annotations;
            && (key in before ==> key in annotations)
            && (PlanIn(c).counts != map[] && key !in before ==>
                  SelectionText(key, PodOf(c.doc), c.injections) == if key in annotations then Some(annotations[key]) else None)
            && (PlanIn(c).counts != map[] && key in before ==>
                  annotations[key] == match FirstInjected(c.injections, key) case Some(v) => v case None => before[key])
            && (PlanIn(c).counts == map[] ==> annotations == before)
  {
    PatchedPod(c, patch, after);
    MergedIsFirst(c.injections, key);
  }

  predicate Agree(injections: seq<Injection>) {
    forall p, q, key ::
      (p in injections && q in injections && AddsAnnotations(p) && AddsAnnotations(q) && key in AnnotationsOf(p) && key in AnnotationsOf(q)) ==>
        AnnotationsOf(p)[key] == AnnotationsOf(q)[key]
  }

  lemma {:induction false} FirstInjectedFrom(injections: seq<Injection>, key: string)
    ensures var first := FirstInjected(injections, key);
            && (first.Some? ==> exists p :: p in injections && AddsAnnotations(p) && key in AnnotationsOf(p) && AnnotationsOf(p)[key] == first.value)
            && (first.None? ==> forall p :: p in injections && AddsAnnotations(p) ==> key !in AnnotationsOf(p))
    decreases |injections|
  {
    if injections != [] {
      var n := |injections| - 1;
      FirstInjectedFrom(injections[..n], key);
      assert injections == injections[..n] + [injections[n]];
    }
  }

  lemma SameFirst(a: seq<Injection>, b: seq<Injection>, key: string)
    requires Agree(a) && forall p :: p in a <==> p in b
    ensures FirstInjected(a, key) == FirstInjected(b, key)
  {
    FirstInjectedFrom(a, key);
    FirstInjectedFrom(b, key);
  }

  lemma SameMembers<T>(a: seq<T>, b: seq<T>)
    requires multiset(a) == multiset(b)
    ensures forall p :: p in a <==> p in b
  {
    forall p ensures p in a <==> p in b {
      assert p in a <==> p in multiset(a);
      assert p in b <==> p in multiset(b);
    }
  }

  /** Injections that agree on shared keys merge to the same annotations in any order. */
  lemma AgreeingInjectionsCommute(a: seq<Injection>, b: seq<Injection>)
    requires Agree(a) && multiset(a) == multiset(b)
    ensures MergeInjected(a) == MergeInjected(b)
  {
    SameMembers(a, b);
    forall key ensures key in MergeInjected(a) <==> key in MergeInjected(b)
      ensures key in MergeInjected(a) ==> key in MergeInjected(b) && MergeInjected(a)[key] == MergeInjected(b)[key]
    {
      SameFirst(a, b, key);
      MergedIsFirst(a, key);
      MergedIsFirst(b, key);
    }
  }

  // ---------- iteration orders ----------

  lemma JudgedByTexts(a: Pod, b: Pod, namespace: string, injections: seq<Injection>, others: seq<Injection>, env: Environment)
    requires SelectionText(NETWORKS_KEY, a, injections) == SelectionText(NETWORKS_KEY, b, others)
    requires SelectionText(DEFAULT_NETWORK_KEY, a, injections) == SelectionText(DEFAULT_NETWORK_KEY, b, others)
    ensures Judge(a, namespace, injections, env) == Judge(b, namespace, others, env)
  {
  }

  /** Agreeing injections lead to the same verdict and the same plan in any order. */
  lemma AgreeingInjectionsDecideAlike(c: Case, injections: seq<Injection>)
    requires Agree(c.injections) && multiset(c.injections) == multiset(injections)
    ensures FoundIn(c.(injections := injections)) == FoundIn(c) && PlanIn(c.(injections := injections)) == PlanIn(c)
  {
    SameMembers(c.injections, injections);
    SameFirst(c.injections, injections, NETWORKS_KEY);
    SameFirst(c.injections, injections, DEFAULT_NETWORK_KEY);
    JudgedByTexts(PodOf(c.doc), PodOf(c.doc), c.namespace, c.injections, injections, c.env);
    AgreeingInjectionsCommute(c.injections, injections);
  }

  lemma ListsPermuted(pod: Pod, plan: Plan, a: EmissionOrder, b: EmissionOrder)
    requires ValidOrder(pod, plan, a) && ValidOrder(pod, plan, b)
    ensures multiset(ExposedList(pod, plan, a)) == multiset(ExposedList(pod, plan, b))
  {
    if plan.counts != map[] && plan.hugepages {
      ListPermuted(pod.containers, a.hugepages, b.hugepages);
    }
  }

  /**
   Two answers that differ only in the orders in which maps were visited, the injection table
   included, both apply or both fail, provided the matching injections agree on shared keys;
   applied, they give the same document up to a permutation of the items published by the new
   volume, and the very same one if hugepages are visited in the same order.
   */
  lemma OrdersDoNotShow(c: Case, other: Case, patch: seq<Op>, otherPatch: seq<Op>)
    requires Admits(c, patch) && Admits(other, otherPatch)
    requires other == c.(injections := other.injections, order := other.order)
    requires Agree(c.injections) && multiset(c.injections) == multiset(other.injections)
    ensures Proceeds(c) && Proceeds(other) && PlanIn(other) == PlanIn(c)
    ensures Apply(c.doc, patch).Some? == Apply(c.doc, otherPatch).Some?
    ensures Apply(c.doc, patch).Some? ==>
              && Apply(c.doc, patch).value == Transform(c.doc, PlanIn(c), ListIn(c))
              && Apply(c.doc, otherPatch).value == Transform(c.doc, PlanIn(c), ListIn(other))
    ensures multiset(ListIn(c)) == multiset(ListIn(other))
    ensures c.order.hugepages == other.order.hugepages ==> Apply(c.doc, patch) == Apply(c.doc, otherPatch)
  {
    AgreeingInjectionsDecideAlike(c, other.injections);
    assert FoundIn(other) == FoundIn(c.(injections := other.injections));
    PatchYieldsTransform(c, patch);
    PatchYieldsTransform(other, otherPatch);
    ListsPermuted(PodOf(c.doc), PlanIn(c), c.order, other.order);
  }

  /** So two answers to one request from one table give the same document, whatever Go's map orders. */
  lemma TableOrderDoesNotShow(request: Request, known: Known, table: Injections, env: Environment,
                              injectionOrder1: seq<string>, injectionOrder2: seq<string>)
    requires Enumerates(injectionOrder1, table.Keys) && Enumerates(injectionOrder2, table.Keys)
    requires Agree(Matching(table, known.pod.labels, injectionOrder1))
    ensures forall order1, order2, patch1, patch2 ::
              var c1 := HandledCase(request, known, table, injectionOrder1, env, order1);
              var c2 := HandledCase(request, known, table, injectionOrder2, env, order2);
              Admits(c1, patch1) && Admits(c2, patch2) && order1.hugepages == order2.hugepages ==>
                Apply(request.doc, patch1) == Apply(request.doc, patch2)
  {
    MatchingPermutes(table, known.pod.labels, injectionOrder1, injectionOrder2);
    forall order1, order2, patch1, patch2 |
      && Admits(HandledCase(request, known, table, injectionOrder1, env, order1), patch1)
      && Admits(HandledCase(request, known, table, injectionOrder2, env, order2), patch2)
      && order1.hugepages == order2.hugepages
      ensures Apply(request.doc, patch1) == Apply(request.doc, patch2)
    {
      OrdersDoNotShow(HandledCase(request, known, table, injectionOrder1, env, order1),
                      HandledCase(request, known, table, injectionOrder2, env, order2), patch1, patch2);
    }
  }
}
