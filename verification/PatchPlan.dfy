/**
 What the patch for a pod consists of, as a list of `add` edits on reference tokens. The
 methods in Webhook are proved to emit exactly this list, printed as JSON Pointers.
 */
module PatchPlan {
  import opened Text
  import opened JsonPatch
  import opened Orders
  import opened PodView
  import opened Hugepages

  const POD_NET_INFO := "podnetinfo"
  const CONTAINER_NAME := "CONTAINER_NAME"

  /** Everything the emitted patch depends on besides the pod and iteration orders. */
  datatype Plan = Plan(
    counts: map<string, nat>,        // resources counted over the selected networks
    desired: map<string, string>,    // node selector labels of the selected networks
    injected: map<string, string>,   // annotations of the matching user-defined injections
    honor: bool,                     // honor existing resources
    hugepages: bool                  // expose hugepages through the Downward API
  )

  datatype EmissionOrder = EmissionOrder(resources: seq<string>, hugepages: seq<KindOrders>)

  // ---------- quantities ----------

  function QuantityIn(quantities: map<string, real>, name: string): real {
    if name in quantities then quantities[name] else 0.0
  }

  predicate NamedByAny(containers: seq<Container>, name: string) {
    exists i :: 0 <= i < |containers| && (name in containers[i].limits || name in containers[i].requests)
  }

  /** The resource entries that are written, for both requests and limits. */
  function WrittenResources(containers: seq<Container>, plan: Plan): set<string> {
    if plan.honor then plan.counts.Keys
    else set name | name in plan.counts && !NamedByAny(containers, name)
  }

  function NewQuantities(containers: seq<Container>, existing: map<string, real>, plan: Plan): map<string, real> {
    map name | name in WrittenResources(containers, plan) ::
      plan.counts[name] as real + if plan.honor then QuantityIn(existing, name) else 0.0
  }

  function NewRequests(containers: seq<Container>, plan: Plan): map<string, real>
    requires containers != []
  {
    NewQuantities(containers, containers[0].requests, plan)
  }

  function NewLimits(containers: seq<Container>, plan: Plan): map<string, real>
    requires containers != []
  {
    NewQuantities(containers, containers[0].limits, plan)
  }

  // ---------- JSON values ----------

  function EnvJson(name: string, value: string): Json {
    Obj(if value == "" then map["name" := Str(name)] else map["name" := Str(name), "value" := Str(value)])
  }

  const MOUNT_JSON := Obj(map["name" := Str(POD_NET_INFO), "readOnly" := Bool(true), "mountPath" := Str("/etc/podnetinfo")])

  function FieldItem(path: string, fieldPath: string): Json {
    Obj(map["path" := Str(path), "fieldRef" := Obj(map["fieldPath" := Str(fieldPath)])])
  }

  function ResourceItem(h: HugepageResource): Json {
    var selector := map["resource" := Str(h.resourceName), "divisor" := Num(1048576.0)];
    Obj(map["path" := Str(h.path),
            "resourceFieldRef" := Obj(if h.containerName == "" then selector
                                      else selector["containerName" := Str(h.containerName)])])
  }

  function ResourceItems(list: seq<HugepageResource>): seq<Json> {
    seq(|list|, i requires 0 <= i < |list| => ResourceItem(list[i]))
  }

  function MetadataItems(pod: Pod): seq<Json> {
    (if pod.labels != map[] then [FieldItem("labels", "metadata.labels")] else []) +
    (if pod.annotations != map[] then [FieldItem("annotations", "metadata.annotations")] else [])
  }

  function VolumeJson(items: seq<Json>): Json {
    Obj(map["name" := Str(POD_NET_INFO),
            "downwardAPI" := Obj(if items == [] then map[] else map["items" := Arr(items)])])
  }

  // ---------- edits ----------

  function AtContainer(i: nat, edits: seq<Edit>): seq<Edit> {
    Under("spec", Under("containers", Under(Itoa(i), edits)))
  }

  /** Edits for every container of a list, container by container. */
  function ForEachContainer(parts: seq<seq<Edit>>): seq<Edit> {
    if parts == [] then []
    else
      var n := |parts| - 1;
      ForEachContainer(parts[..n]) + AtContainer(n, parts[n])
  }

  function EmptyEdits(quantities: map<string, real>, key: string): seq<Edit> {
    if quantities == map[] then [Edit([key], Obj(map[]))] else []
  }

  function QuantityEdits(requests: map<string, real>, limits: map<string, real>, order: seq<string>): seq<Edit>
    requires forall i :: 0 <= i < |order| ==> order[i] in requests && order[i] in limits
  {
    if order == [] then []
    else
      var n := |order| - 1;
      QuantityEdits(requests, limits, order[..n])
      + [Edit(["requests", order[n]], Num(requests[order[n]])), Edit(["limits", order[n]], Num(limits[order[n]]))]
  }

  /** Below container 0's resources: missing parents first, then one pair per resource. */
  function ResourceEdits(containers: seq<Container>, plan: Plan, order: seq<string>): seq<Edit>
    requires containers != []
    requires Enumerates(order, WrittenResources(containers, plan))
  {
    EmptyEdits(containers[0].requests, "requests")
    + EmptyEdits(containers[0].limits, "limits")
    + QuantityEdits(NewRequests(containers, plan), NewLimits(containers, plan), order)
  }

  /** An environment variable is added unless one of that name exists. */
  function EnsureEnvEdits(c: Container, envName: string, envVal: string): seq<Edit> {
    if envName in c.env then []
    else if c.env == [] then [Edit(["env"], Arr([EnvJson(envName, envVal)]))]
    else [Edit(["env", "-"], EnvJson(envName, envVal))]
  }

  function EnvEdits(c: Container): seq<Edit> {
    if HasHugepages(c) then EnsureEnvEdits(c, CONTAINER_NAME, c.name) else []
  }

  function EnvParts(containers: seq<Container>): seq<seq<Edit>> {
    seq(|containers|, i requires 0 <= i < |containers| => EnvEdits(containers[i]))
  }

  function MountEdits(c: Container): seq<Edit> {
    if POD_NET_INFO in c.volumeMounts then []
    else
      (if c.volumeMounts == [] then [Edit(["volumeMounts"], Arr([]))] else [])
      + [Edit(["volumeMounts", "-"], MOUNT_JSON)]
  }

  function MountParts(containers: seq<Container>): seq<seq<Edit>> {
    seq(|containers|, i requires 0 <= i < |containers| => MountEdits(containers[i]))
  }

  function VolumeItems(pod: Pod, list: seq<HugepageResource>): seq<Json> {
    MetadataItems(pod) + ResourceItems(list)
  }

  /** Below the pod's spec. */
  function VolumeEdits(pod: Pod, list: seq<HugepageResource>): seq<Edit> {
    if POD_NET_INFO in pod.volumes then []
    else
      (if pod.volumes == [] then [Edit(["volumes"], Arr([]))] else [])
      + [Edit(["volumes", "-"], VolumeJson(VolumeItems(pod, list)))]
  }

  function MergedAnnotations(pod: Pod, injected: map<string, string>): map<string, string> {
    pod.annotations + injected
  }

  function AnnotationEdits(pod: Pod, injected: map<string, string>): seq<Edit> {
    if injected == map[] then []
    else [Edit(["metadata", "annotations"], Obj(StringFields(MergedAnnotations(pod, injected))))]
  }

  function NodeSelectorEdits(pod: Pod, desired: map<string, string>): seq<Edit> {
    var target := pod.nodeSelector + desired;
    if target == map[] then [] else [Edit(["spec", "nodeSelector"], Obj(StringFields(target)))]
  }

  /** The iterations that take place: none without a counted resource. */
  ghost predicate ValidOrder(pod: Pod, plan: Plan, order: EmissionOrder) {
    plan.counts != map[] ==>
      && Enumerates(order.resources, WrittenResources(pod.containers, plan))
      && (plan.hugepages ==> ValidHugepageOrders(pod.containers, order.hugepages))
  }

  ghost function ExposedList(pod: Pod, plan: Plan, order: EmissionOrder): seq<HugepageResource>
    requires ValidOrder(pod, plan, order)
  {
    if plan.counts != map[] && plan.hugepages then ListAll(pod.containers, order.hugepages) else []
  }

  /** Resources of container 0, then CONTAINER_NAME variables, then mounts. */
  function ContainerEdits(containers: seq<Container>, plan: Plan, order: seq<string>): seq<Edit>
    requires containers != []
    requires Enumerates(order, WrittenResources(containers, plan))
  {
    AtContainer(0, Under("resources", ResourceEdits(containers, plan, order)))
    + (if plan.hugepages then ForEachContainer(EnvParts(containers)) else [])
    + ForEachContainer(MountParts(containers))
  }

  /** The patch: everything but the node selector is there only if some resource was counted. */
  ghost function PodEdits(pod: Pod, plan: Plan, order: EmissionOrder): seq<Edit>
    requires plan.counts != map[] ==> pod.containers != []
    requires ValidOrder(pod, plan, order)
  {
    if plan.counts == map[] then NodeSelectorEdits(pod, plan.desired)
    else
      ContainerEdits(pod.containers, plan, order.resources)
      + FinalEdits(pod, plan, ExposedList(pod, plan, order))
  }

  function FinalEdits(pod: Pod, plan: Plan, list: seq<HugepageResource>): seq<Edit> {
    Under("spec", VolumeEdits(pod, list))
    + (AnnotationEdits(pod, plan.injected) + NodeSelectorEdits(pod, plan.desired))
  }
}
