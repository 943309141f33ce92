/**
 What the webhook answers for a pod: the selections it reads, the networks it tallies, and
 the outcome, given the cache, the API server, the switches and the matching injections.
 */
module Decision {
  import opened Wrappers
  import opened JsonPatch
  import opened PodView
  import opened Selections
  import opened NadCache
  import opened Networks
  import opened Injections
  import opened PatchPlan

  const NETWORKS_KEY := "k8s.v1.cni.cncf.io/networks"
  const DEFAULT_NETWORK_KEY := "v1.multus-cni.io/default-network"

  datatype Environment = Environment(
    table: Table,
    store: Store,
    resourceKeys: seq<string>,
    honor: bool,
    hugepages: bool,
    decode: Decoder
  )

  // ---------- the matching injections, in the order they were collected ----------

  predicate AddsAnnotations(p: Injection) {
    p.op == "add" && p.path == ANNOTATIONS_PATH
  }

  /** The annotations to inject: for a key in several injections, the first one counts. */
  function MergeInjected(injections: seq<Injection>): map<string, string>
    decreases |injections|
  {
    if injections == [] then map[]
    else
      var n := |injections| - 1;
      var before := MergeInjected(injections[..n]);
      if AddsAnnotations(injections[n]) then AnnotationsOf(injections[n]) + before else before
  }

  /** The first injection that carries a key. */
  function FirstInjected(injections: seq<Injection>, key: string): Option<string>
    decreases |injections|
  {
    if injections == [] then None
    else
      var n := |injections| - 1;
      var before := FirstInjected(injections[..n], key);
      if before.None? && AddsAnnotations(injections[n]) && key in AnnotationsOf(injections[n])
      then Some(AnnotationsOf(injections[n])[key]) else before
  }

  /** An injection that adds the annotation. */
  predicate CarriesKey(p: Injection, key: string) {
    p.op == "add" && p.path == "/metadata/annotations" && p.value.Some? && key in p.value.value
  }

  lemma {:induction false} NotInjected(injections: seq<Injection>, key: string)
    ensures FirstInjected(injections, key).None? <==> forall p :: p in injections ==> !CarriesKey(p, key)
    decreases |injections|
  {
    if injections != [] {
      var n := |injections| - 1;
      NotInjected(injections[..n], key);
      assert injections == injections[..n] + [injections[n]];
      assert CarriesKey(injections[n], key) <==> AddsAnnotations(injections[n]) && key in AnnotationsOf(injections[n]);
      assert forall p :: p in injections <==> p in injections[..n] || p == injections[n];
    }
  }

  /** The injection is the first one in the list that adds the annotation. */
  predicate FirstCarrier(injections: seq<Injection>, key: string, i: nat) {
    i < |injections| && CarriesKey(injections[i], key) && forall j :: 0 <= j < i ==> !CarriesKey(injections[j], key)
  }

  /** What counts is the first injection in the list that adds the annotation. */
  lemma {:induction false} FirstInjectedExactly(injections: seq<Injection>, key: string, i: nat)
    requires FirstCarrier(injections, key, i)
    ensures FirstInjected(injections, key) == Some(injections[i].value.value[key])
    decreases |injections|
  {
    var n := |injections| - 1;
    if i < n {
      FirstInjectedExactly(injections[..n], key, i);
    } else {
      NotInjected(injections[..n], key);
    }
  }

  /** A network annotation of the pod, or else of the injections. */
  function SelectionText(key: string, pod: Pod, injections: seq<Injection>): Option<string> {
    if key in pod.annotations then Some(pod.annotations[key]) else FirstInjected(injections, key)
  }

  // ---------- networks ----------

  /** An absent or empty annotation selects nothing; None is a malformed one. */
  function ElementsOf(text: Option<string>, namespace: string, decode: Decoder): Option<seq<Element>> {
    if text.None? || text.value == "" then Some([]) else SelectionsOf(text.value, namespace, decode)
  }

  /** What one network annotation selects. */
  function ElementsAt(key: string, pod: Pod, namespace: string, injections: seq<Injection>, env: Environment): Option<seq<Element>> {
    ElementsOf(SelectionText(key, pod, injections), namespace, env.decode)
  }

  /**
   An annotation the pod sets itself is the one that is read, whatever is injected; otherwise it
   is the one of the first injection that adds it. An empty or missing one selects nothing.
   */
  lemma ElementsAtExactly(key: string, pod: Pod, namespace: string, injections: seq<Injection>, env: Environment, i: nat)
    ensures key in pod.annotations ==>
              ElementsAt(key, pod, namespace, injections, env) ==
              if pod.annotations[key] == "" then Some([]) else SelectionsOf(pod.annotations[key], namespace, env.decode)
    ensures key !in pod.annotations && (forall p :: p in injections ==> !CarriesKey(p, key)) ==>
              ElementsAt(key, pod, namespace, injections, env) == Some([])
    ensures key !in pod.annotations && FirstCarrier(injections, key, i) ==>
              var text := injections[i].value.value[key];
              ElementsAt(key, pod, namespace, injections, env) ==
              if text == "" then Some([]) else SelectionsOf(text, namespace, env.decode)
  {
    NotInjected(injections, key);
    if FirstCarrier(injections, key, i) { FirstInjectedExactly(injections, key, i); }
  }

  /** The default network counts only if it is a single one. */
  function SingleOnly(elements: seq<Element>): seq<Element> {
    if |elements| == 1 then elements else []
  }

  function FoundAll(elements: seq<Element>, table: Table, store: Store): seq<Option<map<string, string>>> {
    seq(|elements|, i requires 0 <= i < |elements| => Lookup(table, store, elements[i].namespace, elements[i].name))
  }

  datatype Verdict = Skip | Malformed | Refuse | Proceed(found: seq<Option<map<string, string>>>)

  /** The default network first, then the additional ones; parsing and lookup errors end it. */
  function Judge(pod: Pod, namespace: string, injections: seq<Injection>, env: Environment): Verdict {
    var defaultText := SelectionText(DEFAULT_NETWORK_KEY, pod, injections);
    var networksText := SelectionText(NETWORKS_KEY, pod, injections);
    if defaultText.None? && networksText.None? then Skip
    else match ElementsOf(defaultText, namespace, env.decode)
      case None => Malformed
      case Some(defaults) =>
        var first := FoundAll(SingleOnly(defaults), env.table, env.store);
        if !AllAccepted(first) then Refuse
        else match ElementsOf(networksText, namespace, env.decode)
          case None => Malformed
          case Some(elements) =>
            var rest := FoundAll(elements, env.table, env.store);
            if AllAccepted(rest) then Proceed(first + rest) else Refuse
  }

  function PlanFor(found: seq<Option<map<string, string>>>, injections: seq<Injection>, env: Environment): Plan
    requires AllAccepted(found)
  {
    var tally := TallyOf(NOTHING, found, env.resourceKeys);
    Plan(tally.counts, tally.desired, MergeInjected(injections), env.honor, env.hugepages)
  }

  // ---------- answers ----------

  // Crashed: the code indexes the first container of a pod that has none.
  datatype Response = Denied | BadRequest | AllowedUnchanged | Allowed(patch: seq<Op>) | Crashed

  /** The answer for a pod, up to the orders in which maps are visited. */
  ghost predicate AnswersPod(pod: Pod, namespace: string, injections: seq<Injection>, env: Environment,
                             order: EmissionOrder, response: Response)
  {
    match Judge(pod, namespace, injections, env)
    case Skip => response == AllowedUnchanged
    case Malformed => response == BadRequest
    case Refuse => response == Denied
    case Proceed(found) =>
      && AllAccepted(found)
      && var plan := PlanFor(found, injections, env);
         if plan.counts != map[] && pod.containers == [] then response == Crashed
         else ValidOrder(pod, plan, order) && response == Allowed(EncodeAll(PodEdits(pod, plan, order)))
  }
}
