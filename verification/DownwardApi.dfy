/**
 What a container finds in an admitted pod: the Downward API volume with its items, the mount,
 and its own name, read off the patched document.
 */
module DownwardApi {
  import opened Wrappers
  import opened JsonPatch
  import opened Orders
  import opened PodView
  import opened Hugepages
  import opened HugepageExposure
  import opened PatchPlan
  import opened PodTransform
  import opened Decision
  import opened Admission

  // ---------- the items ----------

  /** A file holding a field of the pod. */
  predicate PublishesField(item: Json, path: string, fieldPath: string) {
    && Member(item, "path") == Str(path)
    && Member(Member(item, "fieldRef"), "fieldPath") == Str(fieldPath)
  }

  /** A file holding, in mebibytes, the quantity of one entry of one container. */
  predicate PublishesEntry(item: Json, c: Container, kind: Kind, name: string)
    requires HugepageSize(name).Some?
  {
    var ref := Member(item, "resourceFieldRef");
    && Member(item, "path") == Str(PathOf(kind, HugepageSize(name).value, c.name))
    && Member(ref, "resource") == Str((if kind.Requests? then "requests." else "limits.") + name)
    && PodView.Text(Member(ref, "containerName")) == c.name
    && Member(ref, "divisor") == Num(1048576.0)
  }

  lemma FieldItemReads(path: string, fieldPath: string)
    ensures PublishesField(FieldItem(path, fieldPath), path, fieldPath)
  {
  }

  lemma ResourceItemReads(h: HugepageResource)
    ensures var item := ResourceItem(h);
            var ref := Member(item, "resourceFieldRef");
            && Member(item, "path") == Str(h.path) && Member(ref, "resource") == Str(h.resourceName)
            && PodView.Text(Member(ref, "containerName")) == h.containerName && Member(ref, "divisor") == Num(1048576.0)
  {
  }

  lemma KindPrefix(kind: Kind)
    ensures KindWord(kind) + "s." == if kind.Requests? then "requests." else "limits."
  {
  }

  lemma EntryItemReads(c: Container, kind: Kind, name: string)
    requires Exposed(c, kind, name)
    ensures PublishesEntry(ResourceItem(ResourceOf(c, kind, name)), c, kind, name)
  {
    ResourceItemReads(ResourceOf(c, kind, name));
    KindPrefix(kind);
  }

  /** How many files publish metadata of the pod: its labels and its annotations, if it has any. */
  function MetadataCount(pod: Pod): nat {
    (if pod.labels != map[] then 1 else 0) + (if pod.annotations != map[] then 1 else 0)
  }

  predicate PublishesMetadata(items: seq<Json>, pod: Pod) {
    && |items| >= MetadataCount(pod)
    && (pod.labels != map[] ==> PublishesField(items[0], "labels", "metadata.labels"))
    && (pod.annotations != map[] ==> PublishesField(items[MetadataCount(pod) - 1], "annotations", "metadata.annotations"))
  }

  /** The items after the first `skip` publish the listed entries, one each, in order. */
  predicate PublishesEntries(items: seq<Json>, skip: nat, containers: seq<Container>, keys: seq<EntryKey>) {
    && |items| == skip + |keys|
    && forall j :: 0 <= j < |keys| ==>
         && 0 <= keys[j].0 < |containers| && HugepageSize(keys[j].2).Some?
         && PublishesEntry(items[skip + j], containers[keys[j].0], keys[j].1, keys[j].2)
  }

  lemma MetadataItemsRead(pod: Pod, rest: seq<Json>)
    ensures |MetadataItems(pod)| == MetadataCount(pod)
    ensures PublishesMetadata(MetadataItems(pod) + rest, pod)
  {
    FieldItemReads("labels", "metadata.labels");
    FieldItemReads("annotations", "metadata.annotations");
  }

  lemma ResourceItemsRead(front: seq<Json>, containers: seq<Container>, list: seq<HugepageResource>, keys: seq<EntryKey>)
    requires ListsEntries(containers, list, keys)
    ensures PublishesEntries(front + ResourceItems(list), |front|, containers, keys)
  {
    var items := front + ResourceItems(list);
    forall j | 0 <= j < |keys|
      ensures HugepageSize(keys[j].2).Some? && PublishesEntry(items[|front| + j], containers[keys[j].0], keys[j].1, keys[j].2)
    {
      assert items[|front| + j] == ResourceItem(list[j]);
      EntryItemReads(containers[keys[j].0], keys[j].1, keys[j].2);
    }
  }

  lemma VolumeReads(items: seq<Json>)
    ensures Member(VolumeJson(items), "name") == Str(POD_NET_INFO)
    ensures Items(Member(Member(VolumeJson(items), "downwardAPI"), "items")) == items
  {
  }

  // ---------- the volume in the patched document ----------

  lemma FinishedVolumes(doc: Json, items: seq<Json>, pod: Pod, plan: Plan, list: seq<HugepageResource>)
    requires POD_NET_INFO !in pod.volumes
    ensures Member(Member(Finished(doc, items, pod, plan, list), "spec"), "volumes") ==
            Arr(Items(Member(Member(doc, "spec"), "volumes")) + [VolumeJson(VolumeItems(pod, list))])
  {
    var spec1 := Put(Member(doc, "spec"), "containers", Arr(items));
    var spec := WithVolume(spec1, pod, list);
    var doc1 := Put(doc, "spec", spec);
    var doc2 := WithAnnotations(doc1, pod, plan.injected);
    assert Member(spec1, "volumes") == Member(Member(doc, "spec"), "volumes");
    AnnotationsRest(doc1, pod, plan.injected);
    NodeSelectorRest(doc2, pod, plan.desired);
    assert Member(doc2, "spec") == spec;
    var last := Member(WithNodeSelector(doc2, pod, plan.desired), "spec");
    assert Member(last, "volumes") == Member(spec, "volumes");
  }

  /** The entries that are published: all exposed ones if the feature is on, none otherwise. */
  ghost predicate PublishedKeys(c: Case, keys: seq<EntryKey>) {
    NoDuplicates(keys) && forall k :: k in keys <==> c.env.hugepages && IsExposed(PodOf(c.doc).containers, k)
  }

  /** The volume holds the pod's metadata and exactly the published entries. */
  ghost predicate VolumePublishes(volume: Json, c: Case) {
    var items := Items(Member(Member(volume, "downwardAPI"), "items"));
    && Member(volume, "name") == Str(POD_NET_INFO)
    && PublishesMetadata(items, PodOf(c.doc))
    && exists keys :: PublishedKeys(c, keys) && PublishesEntries(items, MetadataCount(PodOf(c.doc)), PodOf(c.doc).containers, keys)
  }

  lemma ListPublishes(c: Case, list: seq<HugepageResource>, keys: seq<EntryKey>)
    requires PublishedKeys(c, keys) && ListsEntries(PodOf(c.doc).containers, list, keys)
    ensures VolumePublishes(VolumeJson(VolumeItems(PodOf(c.doc), list)), c)
  {
    var pod := PodOf(c.doc);
    VolumeReads(VolumeItems(pod, list));
    MetadataItemsRead(pod, ResourceItems(list));
    ResourceItemsRead(MetadataItems(pod), pod.containers, list, keys);
  }

  lemma ExposedListed(c: Case) returns (keys: seq<EntryKey>)
    requires Proceeds(c) && PlanIn(c).counts != map[]
    ensures PublishedKeys(c, keys) && ListsEntries(PodOf(c.doc).containers, ListIn(c), keys)
  {
    if c.env.hugepages {
      KeysAllExact(PodOf(c.doc).containers, c.order.hugepages);
      keys := KeysAll(PodOf(c.doc).containers, c.order.hugepages);
    } else {
      keys := [];
    }
  }

  /**
   If something was counted and the pod has no such volume, the patched document ends its
   volumes with one that publishes the pod's metadata and, if the feature is on, each non-zero
   hugepage entry of each container in exactly one file.
   */
  lemma HugepagesPublished(c: Case, patch: seq<Op>, after: Json)
    requires Admits(c, patch) && Apply(c.doc, patch) == Some(after)
    requires PlanIn(c).counts != map[] && POD_NET_INFO !in PodOf(c.doc).volumes
    ensures var before := Items(Member(Member(c.doc, "spec"), "volumes"));
            var volumes := Items(Member(Member(after, "spec"), "volumes"));
            && |volumes| == |before| + 1 && volumes[..|before|] == before
            && VolumePublishes(volumes[|before|], c)
  {
    PatchYieldsTransform(c, patch);
    FinishedVolumes(c.doc, NewContainers(ContainerItems(c.doc), PlanIn(c)), PodOf(c.doc), PlanIn(c), ListIn(c));
    var keys := ExposedListed(c);
    ListPublishes(c, ListIn(c), keys);
  }

  // ---------- the files of the volume ----------

  function FilesOf(volume: Json): seq<Json> {
    Items(Member(Member(volume, "downwardAPI"), "items"))
  }

  predicate DistinctFiles(items: seq<Json>) {
    forall i, j :: 0 <= i < j < |items| ==> Member(items[i], "path") != Member(items[j], "path")
  }

  predicate HasFile(items: seq<Json>, path: string) {
    exists i :: 0 <= i < |items| && Member(items[i], "path") == Str(path)
  }

  lemma MetadataNamesDiffer()
    ensures "labels" != "annotations"
  {
    assert "labels"[0] != "annotations"[0];
  }

  /** Which of the first files is which. */
  lemma MetadataFile(items: seq<Json>, pod: Pod, i: nat)
    requires PublishesMetadata(items, pod) && i < MetadataCount(pod)
    ensures i < |items|
    ensures Member(items[i], "path") == Str("labels") || (Member(items[i], "path") == Str("annotations") && pod.annotations != map[])
    ensures pod.labels != map[] && i == 0 ==> Member(items[i], "path") == Str("labels")
    ensures i > 0 || pod.labels == map[] ==> Member(items[i], "path") == Str("annotations")
  {
  }

  lemma EntryFile(items: seq<Json>, skip: nat, containers: seq<Container>, keys: seq<EntryKey>, i: nat)
    requires PublishesEntries(items, skip, containers, keys) && skip <= i < |items|
    ensures Member(items[i], "path") != Str("labels") && Member(items[i], "path") != Str("annotations")
  {
    var k := keys[i - skip];
    assert items[i] == items[skip + (i - skip)];
    PathsAvoidMetadata(k.1, HugepageSize(k.2).value, containers[k.0].name);
  }

  lemma AnnotationsFile(items: seq<Json>, pod: Pod, keys: seq<EntryKey>)
    requires PublishesMetadata(items, pod) && PublishesEntries(items, MetadataCount(pod), pod.containers, keys)
    ensures HasFile(items, "annotations") <==> pod.annotations != map[]
  {
    MetadataNamesDiffer();
    if pod.annotations != map[] {
      MetadataFile(items, pod, MetadataCount(pod) - 1);
      assert Member(items[MetadataCount(pod) - 1], "path") == Str("annotations");
    }
    forall i | 0 <= i < |items| && pod.annotations == map[] ensures Member(items[i], "path") != Str("annotations") {
      if i < MetadataCount(pod) { MetadataFile(items, pod, i); } else { EntryFile(items, MetadataCount(pod), pod.containers, keys, i); }
    }
  }

  lemma EntryFilesCoincide(containers: seq<Container>, items: seq<Json>, skip: nat, keys: seq<EntryKey>, i: nat, j: nat)
    requires DistinctNames(containers) && NamesWithoutUnderscore(containers)
    requires PublishesEntries(items, skip, containers, keys) && i < |keys| && j < |keys| && keys[i] != keys[j]
    requires IsExposed(containers, keys[i]) && IsExposed(containers, keys[j])
    ensures Member(items[skip + i], "path") == Member(items[skip + j], "path") <==> SizesClash(containers, keys[i], keys[j])
  {
    EntryPathsCoincide(containers, keys[i], keys[j]);
  }

  /** Two entries that clash are both published, under one name. */
  lemma ClashRepeatsFile(containers: seq<Container>, items: seq<Json>, skip: nat, keys: seq<EntryKey>, i: nat, j: nat)
    requires DistinctNames(containers) && NamesWithoutUnderscore(containers)
    requires PublishesEntries(items, skip, containers, keys) && i < |keys| && j < |keys| && SizesClash(containers, keys[i], keys[j])
    ensures !DistinctFiles(items)
  {
    EntryFilesCoincide(containers, items, skip, keys, i, j);
    SameFile(items, skip + i, skip + j);
  }

  lemma SameFile(items: seq<Json>, i: nat, j: nat)
    requires i < |items| && j < |items| && i != j && Member(items[i], "path") == Member(items[j], "path")
    ensures !DistinctFiles(items)
  {
    if i < j {
      assert Member(items[i], "path") == Member(items[j], "path");
    } else {
      assert Member(items[j], "path") == Member(items[i], "path");
    }
  }

  lemma MetadataFileDiffers(pod: Pod, items: seq<Json>, keys: seq<EntryKey>, i: nat, j: nat)
    requires PublishesMetadata(items, pod) && PublishesEntries(items, MetadataCount(pod), pod.containers, keys)
    requires i < j < |items| && i < MetadataCount(pod)
    ensures Member(items[i], "path") != Member(items[j], "path")
  {
    MetadataNamesDiffer();
    MetadataFile(items, pod, i);
    if j < MetadataCount(pod) { MetadataFile(items, pod, j); } else { EntryFile(items, MetadataCount(pod), pod.containers, keys, j); }
  }

  lemma EntryFileDiffers(containers: seq<Container>, items: seq<Json>, skip: nat, keys: seq<EntryKey>, i: nat, j: nat)
    requires DistinctNames(containers) && NamesWithoutUnderscore(containers)
    requires PublishesEntries(items, skip, containers, keys) && i < |keys| && j < |keys| && keys[i] != keys[j]
    requires IsExposed(containers, keys[i]) && IsExposed(containers, keys[j]) && !SomeClash(containers)
    ensures Member(items[skip + i], "path") != Member(items[skip + j], "path")
  {
    EntryFilesCoincide(containers, items, skip, keys, i, j);
  }

  lemma FilesDiffer(pod: Pod, items: seq<Json>, keys: seq<EntryKey>, i: nat, j: nat)
    requires DistinctNames(pod.containers) && NamesWithoutUnderscore(pod.containers)
    requires PublishesMetadata(items, pod) && PublishesEntries(items, MetadataCount(pod), pod.containers, keys)
    requires NoDuplicates(keys) && AllExposed(pod.containers, keys) && (keys != [] ==> !SomeClash(pod.containers))
    requires i < j < |items|
    ensures Member(items[i], "path") != Member(items[j], "path")
  {
    var skip := MetadataCount(pod);
    if i < skip {
      MetadataFileDiffers(pod, items, keys, i, j);
    } else {
      EntryFileDiffers(pod.containers, items, skip, keys, i - skip, j - skip);
    }
  }

  ghost predicate AllExposed(containers: seq<Container>, keys: seq<EntryKey>) {
    forall j :: 0 <= j < |keys| ==> IsExposed(containers, keys[j])
  }

  lemma NoClashDistinctFiles(pod: Pod, items: seq<Json>, keys: seq<EntryKey>)
    requires DistinctNames(pod.containers) && NamesWithoutUnderscore(pod.containers)
    requires PublishesMetadata(items, pod) && PublishesEntries(items, MetadataCount(pod), pod.containers, keys)
    requires NoDuplicates(keys) && AllExposed(pod.containers, keys) && (keys != [] ==> !SomeClash(pod.containers))
    ensures DistinctFiles(items)
  {
    forall i, j | 0 <= i < j < |items| ensures Member(items[i], "path") != Member(items[j], "path") {
      FilesDiffer(pod, items, keys, i, j);
    }
  }

  lemma FilesDistinctExactly(pod: Pod, items: seq<Json>, published: bool, keys: seq<EntryKey>)
    requires DistinctNames(pod.containers) && NamesWithoutUnderscore(pod.containers)
    requires PublishesMetadata(items, pod) && PublishesEntries(items, MetadataCount(pod), pod.containers, keys)
    requires NoDuplicates(keys) && forall k :: k in keys <==> published && IsExposed(pod.containers, k)
    ensures DistinctFiles(items) <==> !(published && SomeClash(pod.containers))
  {
    if published && SomeClash(pod.containers) {
      var a, b :| SizesClash(pod.containers, a, b);
      var i :| 0 <= i < |keys| && keys[i] == a;
      var j :| 0 <= j < |keys| && keys[j] == b;
      ClashRepeatsFile(pod.containers, items, MetadataCount(pod), keys, i, j);
    } else {
      assert keys != [] ==> keys[0] in keys;
      assert forall j :: 0 <= j < |keys| ==> keys[j] in keys;
      NoClashDistinctFiles(pod, items, keys);
    }
  }

  /**
   The added volume has a file with the annotations exactly if the pod had any before it was
   patched. So the annotations of the patched pod go unpublished exactly if all are injected.
   */
  lemma AnnotationsPublishedExactly(c: Case, patch: seq<Op>, after: Json)
    requires Admits(c, patch) && Apply(c.doc, patch) == Some(after)
    requires PlanIn(c).counts != map[] && POD_NET_INFO !in PodOf(c.doc).volumes
    ensures var volume := LastOf(Member(Member(after, "spec"), "volumes"));
            && (HasFile(FilesOf(volume), "annotations") <==> PodOf(c.doc).annotations != map[])
            && (PodOf(after).annotations != map[] && !HasFile(FilesOf(volume), "annotations") <==>
                PodOf(c.doc).annotations == map[] && MergeInjected(c.injections) != map[])
  {
    var volume := LastOf(Member(Member(after, "spec"), "volumes"));
    HugepagesPublished(c, patch, after);
    var keys :| PublishedKeys(c, keys) && PublishesEntries(FilesOf(volume), MetadataCount(PodOf(c.doc)), PodOf(c.doc).containers, keys);
    AnnotationsFile(FilesOf(volume), PodOf(c.doc), keys);
    PatchedPod(c, patch, after);
    TargetEmpty(PodOf(c.doc).annotations, MergeInjected(c.injections));
  }

  /** All files of the added volume have distinct names exactly if no two published sizes clash. */
  lemma VolumeFilesDistinctExactly(c: Case, patch: seq<Op>, after: Json)
    requires Admits(c, patch) && Apply(c.doc, patch) == Some(after)
    requires PlanIn(c).counts != map[] && POD_NET_INFO !in PodOf(c.doc).volumes
    requires DistinctNames(PodOf(c.doc).containers) && NamesWithoutUnderscore(PodOf(c.doc).containers)
    ensures DistinctFiles(FilesOf(LastOf(Member(Member(after, "spec"), "volumes")))) <==>
            !(c.env.hugepages && SomeClash(PodOf(c.doc).containers))
  {
    var files := FilesOf(LastOf(Member(Member(after, "spec"), "volumes")));
    HugepagesPublished(c, patch, after);
    var keys :| PublishedKeys(c, keys) && PublishesEntries(files, MetadataCount(PodOf(c.doc)), PodOf(c.doc).containers, keys);
    FilesDistinctExactly(PodOf(c.doc), files, c.env.hugepages, keys);
  }

  // ---------- the containers in the patched document ----------

  /** A list that ends with one more item than before, or the same list. */
  predicate Gains(before: Json, after: Json, gained: bool) {
    if gained then Items(after) != [] && Items(after)[..|Items(after)| - 1] == Items(before) else after == before
  }

  function LastOf(list: Json): Json {
    if Items(list) == [] then Null else Items(list)[|Items(list)| - 1]
  }

  lemma EnvReads(name: string, value: string)
    ensures Member(EnvJson(name, value), "name") == Str(name) && PodView.Text(Member(EnvJson(name, value), "value")) == value
  {
  }

  lemma MountReads()
    ensures Member(MOUNT_JSON, "name") == Str("podnetinfo") && Member(MOUNT_JSON, "mountPath") == Str("/etc/podnetinfo")
    ensures Member(MOUNT_JSON, "readOnly") == Bool(true)
  {
  }

  lemma NewContainerLists(items: seq<Json>, i: nat, plan: Plan)
    requires i < |items|
    ensures Member(NewContainer(items, i, plan), "env") == Member(WithEnv(items[i], plan), "env")
    ensures Member(NewContainer(items, i, plan), "volumeMounts") == Member(WithMount(WithEnv(items[i], plan)), "volumeMounts")
    ensures Member(WithEnv(items[i], plan), "volumeMounts") == Member(items[i], "volumeMounts")
  {
    EnvRest(items[i], plan);
    MountRest(WithEnv(items[i], plan));
    if i == 0 { ResourcesRest(WithMount(WithEnv(items[i], plan)), ContainersOf(items), plan); }
  }

  lemma AppendedGains(j: Json, key: string, item: Json)
    ensures Gains(Member(j, key), Member(Appended(j, key, item), key), true)
    ensures LastOf(Member(Appended(j, key, item), key)) == item
  {
  }

  lemma NewContainerGains(items: seq<Json>, i: nat, plan: Plan)
    requires i < |items|
    ensures var view, item, new_ := ContainerOf(items[i]), items[i], NewContainer(items, i, plan);
            var named := plan.hugepages && HasHugepages(view) && CONTAINER_NAME !in view.env;
            var mounted := POD_NET_INFO !in view.volumeMounts;
            && Gains(Member(item, "env"), Member(new_, "env"), named)
            && (named ==> LastOf(Member(new_, "env")) == EnvJson(CONTAINER_NAME, view.name))
            && Gains(Member(item, "volumeMounts"), Member(new_, "volumeMounts"), mounted)
            && (mounted ==> LastOf(Member(new_, "volumeMounts")) == MOUNT_JSON)
  {
    var c := items[i];
    NewContainerLists(items, i, plan);
    AppendedGains(c, "env", EnvJson(CONTAINER_NAME, ContainerOf(c).name));
    AppendedGains(WithEnv(c, plan), "volumeMounts", MOUNT_JSON);
    assert ContainerOf(WithEnv(c, plan)).volumeMounts == ContainerOf(c).volumeMounts;
  }

  /**
   If something was counted, a container that exposes hugepages and has no CONTAINER_NAME gains
   that variable with its own name as the value, and one without the mount gains it, read-only
   and at the documented place; nothing else joins these lists.
   */
  lemma ContainerGains(c: Case, patch: seq<Op>, after: Json, i: nat)
    requires Admits(c, patch) && Apply(c.doc, patch) == Some(after)
    requires PlanIn(c).counts != map[] && i < |ContainerItems(c.doc)|
    ensures i < |ContainerItems(after)|
    ensures var view := PodOf(c.doc).containers[i];
            var item, new_ := ContainerItems(c.doc)[i], ContainerItems(after)[i];
            var named := c.env.hugepages && HasHugepages(view) && CONTAINER_NAME !in view.env;
            var mounted := POD_NET_INFO !in view.volumeMounts;
            var variable, mount := LastOf(Member(new_, "env")), LastOf(Member(new_, "volumeMounts"));
            && Gains(Member(item, "env"), Member(new_, "env"), named)
            && (named ==> Member(variable, "name") == Str("CONTAINER_NAME") && PodView.Text(Member(variable, "value")) == view.name)
            && Gains(Member(item, "volumeMounts"), Member(new_, "volumeMounts"), mounted)
            && (mounted ==> Member(mount, "name") == Str("podnetinfo") && Member(mount, "readOnly") == Bool(true) &&
                            Member(mount, "mountPath") == Str("/etc/podnetinfo"))
  {
    PatchYieldsTransform(c, patch);
    var items := ContainerItems(c.doc);
    FinishedRest(c.doc, NewContainers(items, PlanIn(c)), PodOf(c.doc), PlanIn(c), ListIn(c));
    NewContainerGains(items, i, PlanIn(c));
    EnvReads(CONTAINER_NAME, PodOf(c.doc).containers[i].name);
    MountReads();
  }
}
