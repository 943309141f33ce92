# Network resources injector: the mutation as a verified patch compiler

The network resources injector is a Kubernetes mutating admission webhook. For a pod that
selects networks in its annotations it looks up the network attachment definitions (NADs),
counts the resources they stand for, and answers with a JSON Patch. This project models that
pipeline in Dafny and proves what the patch does to the pod.

Three layers meet in one theorem:

* **The generator** (`Selections`, `Networks`, `Webhook`): the Go code as methods with its
  loops, branches and string building. Each method is proved to emit exactly the edits planned
  in `PatchPlan`, printed as JSON Pointers.
* **The language** (`Text`, `Pointer`, `JsonPatch`): RFC 6901 pointers and the `add` operation
  of RFC 6902 over JSON trees, failing as RFC 6902 section 5 says.
* **The meaning** (`PodView`, `PodTransform`, `PatchMeaning`, `Admission`): a declarative
  transform on the pod's document that knows nothing of patches. `Admission.PatchYieldsTransform`
  says that applying the emitted patch is that transform, and when it applies at all. The other
  results of `Admission`, `Effects` and `Reinvocation` are read off the transform: conservation of the
  counted resources, what stays untouched, independence of iteration orders, agreement of
  injected and counted networks, and when a second invocation changes nothing. `DownwardApi`
  reads off the patched document what a container will find in its volume and environment.

Around it are the stateful parts: the NAD cache (`NadCache`, an object; `CacheSystem`, its
concurrent runs), the injection table (`Injections`) and the feature switches (`Switches`), the
last two driven by the same polls of a ConfigMap (`Polls`).

## Reading guide

* Go ranges over maps in an unspecified order. The methods pick keys with `:|` and return the
  order that was taken as a ghost result (`Orders.Enumerates`); every theorem holds for all orders.
* Quantities are exact numbers (`real`); a JSON number stands for the value of a quantity text.
* The pod's document is read by `PodView.PodOf`; `PodView.WellTyped` says when decoding it into
  the Go type succeeds. What encoding/json leaves behind when it fails is an abstract function:
  the code drops that error when only the request names a namespace
  (`pkg/webhook/webhook.go:155-158`), and goes on with half a pod (`Requests`).
* The JSON form of a network list is read by an abstract function. An injection entry is laid over
  the one decoded before it, as encoding/json does, because the code reuses one variable
  (`pkg/userdefinedinjections/userdefinedinjections.go:52-58`).
* `None` in `NadCache.Annotations` is Go's nil map: for `Get` it looks like a missing key.
* `Crashed` is the answer for a pod without containers for which something was counted: the code
  indexes the first container (`pkg/webhook/webhook.go:613`, `pkg/webhook/webhook.go:644`).

Where the code and its documentation disagree, the code is followed:

* A ConfigMap without `config.json`, or without a `features` section, leaves the switches as they
  are, although the comment at `cmd/webhook/main.go:272` says that the defaults are restored. For
  user-defined injections the same ConfigMap clears the table.
* The pod's own network annotation decides what is counted, but an injected value overwrites it
  in the emitted annotations, and only if some resource was counted.

* The repository's README says that an existing networks annotation is replaced by the injected
  one, and that only one definition is injected: the code merges all matching injections, the
  first one winning on each key, and replaces only if some resource was counted.

Three properties one might expect are false of the code; each has its exact condition:

* A second invocation may change the pod again. `Reinvocation.ReinvocationExact` says what it
  answers for every pod, and that it changes nothing exactly if the pod made by the first patch
  already has what the second plan asks for (`Reinvocation.Quiet`). Told from the pod before the
  first patch, and for injections that keep the pod's own network annotations, that fails
  exactly if counts are added to existing resources, or if the first round gives container 0 its
  first hugepages while its name is missing (`Reinvocation.KeptNetworksExact`). With an injection
  that replaces a network it fails on the inputs of `Reinvocation.ReplacedNetworkDisturbs`.
* An injection entry that omits a member takes it from the entry decoded before it
  (`Injections.CarryOverShows`). The table forgets its history and the iteration order exactly if
  every entry decodes and states the supported path, and what one entry omits no entry states
  (`Injections.HistoryFreeExactly`).
* The added volume does not always publish the annotations of the pod: exactly if all of them are
  injected they are left out (`DownwardApi.AnnotationsPublishedExactly`).

## Model

| member | source | states |
|---|---|---|
| Pointer.UnescapeEscape | pkg/webhook/webhook.go:243-247 | For every string, reading the two-pass escape by RFC 6901 section 4 gives the string back |
| Pointer.EscapeWellFormed | pkg/webhook/webhook.go:243-247 | An escaped key has no `/` and every `~` in it is followed by 0 or 1 |
| Pointer.EscapeInjective | pkg/webhook/webhook.go:243-247 | Distinct keys get distinct escapes, so distinct resources get distinct paths |
| Pointer.EscapeUnescape | pkg/webhook/webhook.go:243-247 | Escaping reaches every well-formed reference token: it is a bijection onto them |
| Pointer.RenderParses | pkg/webhook/webhook.go:427 | A printed path parses to exactly the reference tokens it was printed from, whatever the keys |
| Pointer.IndexRoundTrip | pkg/webhook/webhook.go:522 | A decimal container index is a canonical array index, reads back as that container and is not `-` |
| Text.ItoaRoundTrip | pkg/webhook/webhook.go:522 | Decimal printing is undone by reading and has no leading zero |
| Text.SplitJoin | pkg/webhook/webhook.go:264 | Splitting undoes joining for parts free of the separator |
| Text.JoinSplit | pkg/webhook/webhook.go:264 | Joining undoes splitting, and no part contains the separator |
| Text.TrimPadded | pkg/webhook/webhook.go:265 | Trimming removes exactly the surrounding white space |
| Text.PaddedExactly | pkg/webhook/webhook.go:399 | The trimmed text is the one core without white space at its ends that the text pads |
| Text.SplitParts | pkg/webhook/webhook.go:392-401 | Splitting gives one part exactly without the separator, and more than two exactly if it occurs twice |
| JsonPatch.AddMeaning | pkg/webhook/webhook.go:672-685 | RFC 6902 section 4.1: `add` succeeds exactly when the parent is an object, or an array with room at the index; then the parent is the old one with the member set, the item inserted, or, for `-`, appended |
| JsonPatch.AddElsewhere | pkg/webhook/webhook.go:672-685 | Every location whose path parts with that of the `add` above its last token, or at a member of an object, is left alone |
| Pointer.ParseIndexInjective | pkg/webhook/webhook.go:522 | Distinct tokens are distinct array indices |
| JsonPatch.ApplyEncoded | pkg/types/types.go:29-34 | Applying operations through their printed paths is applying them at the intended tokens |
| JsonPatch.RunUnderElement | pkg/webhook/webhook.go:526-530 | Operations below one array element act on that element alone and leave its neighbours |
| Selections.ElementExact | pkg/webhook/webhook.go:297-346 | An element is parsed to e exactly when the text is `[namespace/]name[@interface]` for e with every unit empty or a label, the default namespace filling a missing one |
| Selections.CommaFormExact | pkg/webhook/webhook.go:263-274 | On the comma branch the list is accepted exactly when every trimmed part is in that grammar |
| Selections.SelectedNamespaces | pkg/webhook/webhook.go:249-295 | From either branch: success exactly if one of the forms reads; the result is empty exactly if the list is, or a network has neither namespace nor default; else it is the list, element by element, explicit namespaces kept and missing ones filled |
| Selections.ElementForms | pkg/webhook/webhook.go:297-346 | `ns/name@if`, `ns/name`, `name@if` and `name` select what they say |
| Selections.LabelExactly | pkg/webhook/webhook.go:329 | What the pattern for units matches, first, middle and last characters written out |
| Selections.PrintParseRoundTrip | pkg/webhook/webhook.go:249-295 | Networks printed as comma-joined `ns/name[@if]`, with any white space around them, parse back to themselves for any default namespace |
| Selections.FillNamespaces | pkg/webhook/webhook.go:276-292 | The loop updates the elements in place to the filled list, or gives up exactly when a namespace and the default are both missing |
| Selections.ParseCommaForm | pkg/webhook/webhook.go:264-273 | The loop yields all parsed parts in order, or fails if one part does |
| Selections.ParsePodNetworkSelections | pkg/webhook/webhook.go:249-295 | JSON first, then the comma form, then namespaces: the value the lemmas of this module are about |
| Networks.CountsArePairs | pkg/webhook/webhook.go:380-388 | Each resource is counted once for each pair (selected network, resource-name key) whose annotation is that resource; at most networks times keys |
| Networks.TotalIsPairs | pkg/webhook/webhook.go:380-388 | All counts together are the number of all such pairs |
| Networks.TallyPositive | pkg/webhook/webhook.go:383 | No resource is recorded with count zero |
| Networks.LastNetworkSelects | pkg/webhook/webhook.go:391-403 | A node label is desired exactly if some network names it, with the value of the last one processed |
| Networks.SelectorExactly | pkg/webhook/webhook.go:391-403 | A selector text gives a label and a value exactly if it is `label=value`, with white space around either, or a label alone with an empty value |
| Networks.TooManyExactly | pkg/webhook/webhook.go:392-397 | It has too many labels exactly if `=` occurs in it twice |
| HugepageExposure.KeysAllExact | pkg/webhook/webhook.go:762-810 | The exposed items are in bijection with the non-zero `hugepages-*` entries of all containers, requests and limits |
| HugepageExposure.ListPermuted | pkg/webhook/webhook.go:770-797 | Whatever the map iteration orders, the same items are exposed up to permutation |
| Hugepages.ExposedExactly | pkg/webhook/webhook.go:770-787 | Exposed are exactly the non-zero entries of the kind named `hugepages-` and a size |
| Hugepages.HasHugepagesExactly | pkg/webhook/webhook.go:765-803 | A container exposes hugepages exactly if one of its requests or limits is exposed |
| HugepageExposure.StandardPaths | pkg/types/types.go:22-25 | The file names for 1Gi and 2Mi are the documented constants and the container name |
| HugepageExposure.PathsCoincide | pkg/webhook/webhook.go:776-792 | For names without `_`, two file names coincide exactly for the same container name, kind and size without its letters `i` |
| HugepageExposure.PathsDistinctExactly | pkg/webhook/webhook.go:762-810 | With unique container names free of `_`, all file names are distinct exactly when no container has two exposed sizes of one kind that differ only in letters `i` |
| HugepageExposure.StandardSizesNeverClash | pkg/webhook/webhook.go:776 | Sizes whose only `i` is their last letter never clash |
| HugepageExposure.PathsAvoidMetadata | pkg/webhook/webhook.go:456-467 | No hugepage file is called `labels` or `annotations` |
| PatchMeaning.EditsMeanTransform | pkg/webhook/webhook.go:903-922 | Running the planned edits in order is the declarative transform, and fails exactly when a location below which they write is missing |
| PodTransform.TransformDecodes | pkg/webhook/webhook.go:903-922 | The transformed document still decodes, and to the transformed pod |
| PodTransform.RestUntouched | pkg/webhook/webhook.go:903-922 | Everything outside containers, volumes, annotations and node selector stays; in containers everything but container 0's requests and limits; lists keep what they held as a prefix |
| Webhook.PatchEmptyResources | pkg/webhook/webhook.go:424-431 | Emits the planned empty parent, its string path being the printed tokens |
| Webhook.AppendResource | pkg/webhook/webhook.go:672-685 | Emits the request and the limit of one resource, the literal path prefixes and the escaped name being the printed tokens |
| Webhook.DropNamedResources | pkg/webhook/webhook.go:620-629 | Deleting while iterating leaves exactly the resources, with their counts, that are in no container's limits or requests |
| Webhook.CreateResourcePatch | pkg/webhook/webhook.go:611-638 | Emits, for some order of the remaining resources, the planned resource edits without honoring existing ones |
| Webhook.UpdateResourcePatch | pkg/webhook/webhook.go:640-670 | Emits the planned resource edits with existing quantities of container 0 added |
| Webhook.GetResourceList | pkg/webhook/webhook.go:687-694 | Every count becomes the quantity of that value |
| Webhook.AddEnvVar | pkg/webhook/webhook.go:542-564 | Emits a new list or an append at the container's printed index |
| Webhook.CreateEnvPatch | pkg/webhook/webhook.go:566-590 | Emits the variable exactly when the container has none of that name |
| Webhook.CollectHugepages | pkg/webhook/webhook.go:769-782 | One range over requests or limits lists the exposed entries in the order visited |
| Webhook.ProcessHugepagesForDownwardApi | pkg/webhook/webhook.go:762-810 | Lists the exposed entries of all containers and emits the planned environment edits |
| Webhook.AddVolumeMount | pkg/webhook/webhook.go:506-534 | Emits the planned mount edits, container by container |
| Webhook.AddVolDownwardApi | pkg/webhook/webhook.go:433-504 | Emits the planned volume edits with metadata and hugepage items, or nothing if the volume exists |
| Webhook.CreateVolPatch | pkg/webhook/webhook.go:536-540 | Mount edits, then volume edits |
| Webhook.CollectInjected | pkg/webhook/webhook.go:704-715 | Merges the matching injections whatever the iteration orders, the first one winning on each key |
| Webhook.AppendAddAnnotPatch | pkg/webhook/webhook.go:696-728 | Emits the pod's annotations overridden by the merged injections, or nothing if none are injected |
| Webhook.CreateNodeSelectorPatch | pkg/webhook/webhook.go:592-609 | Emits the pod's selector overridden by the desired labels, or nothing if both are empty |
| Webhook.GetNetworkSelections | pkg/webhook/webhook.go:735-760 | The pod's own annotation, else that of the first injection carrying the key |
| Webhook.ParseNetworkAttachDefinition | pkg/webhook/webhook.go:363-406 | Looks a network up through the cache and extends the tally, or refuses a missing one and one with more than one label |
| Webhook.TallyNetworks | pkg/webhook/webhook.go:877-890 | Tallies all networks, or refuses if one of them is refused |
| Webhook.JudgeSelections | pkg/webhook/webhook.go:839-894 | Default network first and only if single, then the additional ones; errors end it as in the code |
| Webhook.BuildPatch | pkg/webhook/webhook.go:903-922 | Emits exactly the planned patch, node selector last |
| Requests.UndecodedLetThrough | pkg/webhook/webhook.go:146-173 | A document that does not decode is let through exactly when what was filled in names no namespace and the request does |
| Requests.DecodedRefused | pkg/webhook/webhook.go:146-173 | A document that decodes is refused only for a namespace that has to be its owner's and is not found |
| Requests.NamespaceChosen | pkg/webhook/webhook.go:150-172 | A decoded pod is in its own namespace, else the request's, else its owner's, else in none |
| PodView.PodRoundTrip | pkg/webhook/webhook.go:146-149 | Every pod written out as a document is read back |
| Webhook.DeserializePod | pkg/webhook/webhook.go:146-173 | The pod and its namespace: its own, else the request's, else its owner's; or the refusal of the request |
| Webhook.MutateHandler | pkg/webhook/webhook.go:813-944 | The answer is the one decided for the pod of the request, the matching injections, the cache, the store and the switches; a patch for a document that decodes, applied to it, is the transform, or fails for a missing parent |
| Admission.HandlerYieldsTransform | pkg/webhook/webhook.go:813-944 | An answer with a patch, for injections read from the table by the pod's labels, meets the hypotheses of the results below, and its patch yields the transform |
| Admission.PatchYieldsTransform | pkg/webhook/webhook.go:903-930 | For every pod admitted with a patch, applying the patch through its printed paths yields the transform of the document; it fails exactly if container 0 has no `resources` object while something was counted, or there is no spec while a node label is desired |
| Admission.AcceptedIsPatched | pkg/webhook/webhook.go:903-930 | Every pod whose networks are accepted, with a container whenever something was counted, is admitted with some patch, and that patch applies exactly if the locations it writes below are there |
| Admission.PatchedPod | pkg/webhook/webhook.go:903-922 | The patched document decodes to the transformed pod |
| Admission.PatchedRest | pkg/webhook/webhook.go:903-922 | Applying the patch leaves everything else in the document as it was, lists keeping their items in place |
| Decision.FirstInjectedExactly | pkg/webhook/webhook.go:744-757 | An annotation that is injected has the value of the first matching injection in the list that adds it |
| Decision.ElementsAtExactly | pkg/webhook/webhook.go:735-742 | The selections are read from the pod's own annotation whatever is injected, else from the first injection adding it; an empty or missing one selects nothing |
| Effects.FoundExactly | pkg/webhook/webhook.go:849-890 | A pod that proceeds has had looked up, index by index, the default network if its annotation selects exactly one, then each additional network in order |
| Effects.CountIsNamed | pkg/webhook/webhook.go:855-890 | The planned count of a resource is the number of (looked-up network, key) pairs naming it, at most networks times keys |
| Effects.HonoredGrowth | pkg/webhook/webhook.go:640-670 | Honoring existing resources, container 0's request and limit of every resource each grow by the number of pairs naming it; other containers keep theirs |
| Effects.HonoredTotal | pkg/webhook/webhook.go:640-670 | Honoring existing resources, the sum of container 0's requests in the patched pod, and that of its limits, grows by the number of all naming pairs, at most (additional networks + 1) times keys |
| Effects.UnhonoredEntries | pkg/webhook/webhook.go:611-638 | Not honoring them, a counted resource in no container's requests or limits gets request = limit = count in container 0; one in any container's keeps every entry of every container, as do all others |
| Admission.PatchedNamespace | pkg/webhook/webhook.go:146-173 | The patched pod, sent in again, is taken to be in the same namespace |
| Admission.OrdersDoNotShow | pkg/webhook/webhook.go:633-635 | Two answers differing in iteration orders, the order of agreeing injections included, both apply or both fail, and give the same document up to a permutation of the published items |
| Admission.AgreeingInjectionsDecideAlike | pkg/webhook/webhook.go:735-760 | Agreeing injections lead to the same looked-up networks and the same plan in any order |
| Admission.TableOrderDoesNotShow | pkg/userdefinedinjections/userdefinedinjections.go:102-109 | Two answers to one request from one injection table, visited in any two orders, give the same document if its matching injections agree and hugepages are visited alike |
| Admission.AgreeingInjectionsCommute | pkg/webhook/webhook.go:704-715 | Injections that agree on shared keys merge to the same annotations in any order |
| Admission.MergedIsFirst | pkg/webhook/webhook.go:704-715 | The merged value of a key is that of the first injection carrying it, the one the selections are read from |
| Admission.AnnotationsAgree | pkg/webhook/webhook.go:717-723 | If something was counted, a key the pod lacks ends up with exactly the text its networks were read from; a key the pod has gets the injected value if there is one; none is lost; nothing changes if nothing was counted |
| Effects.NodeSelectorFold | pkg/webhook/webhook.go:592-609 | Each label of the final selector has the value that the selector text of the last looked-up network mentioning it gives it, else the pod's own |
| Effects.RefusedExactly | pkg/webhook/webhook.go:842-894 | A pod is denied exactly when its single default network or, that one passing, an additional network is in neither the cache nor the API server, or has two `=` in its selector text; a malformed selection read up to there is a bad request; without either annotation, own or injected, the pod is left alone |
| Effects.ContainerNamesEnsured | pkg/webhook/webhook.go:803-806 | Exactly the containers with a non-zero hugepage entry are ensured a CONTAINER_NAME variable, appended if missing |
| DownwardApi.HugepagesPublished | pkg/webhook/webhook.go:449-501 | If something was counted and the pod has no such volume, the patched document gains one volume: its items publish the labels and annotations the pod has and, with the feature on, each non-zero `hugepages-*` entry of each container in exactly one file, with the entry's resource, container and divisor |
| DownwardApi.AnnotationsPublishedExactly | pkg/webhook/webhook.go:462-471 | The added volume has an annotations file exactly if the pod had annotations before; those of the patched pod go unpublished exactly if all are injected |
| DownwardApi.VolumeFilesDistinctExactly | pkg/webhook/webhook.go:449-484 | With unique container names free of `_`, all files of the added volume, metadata included, have distinct names exactly if no two published sizes of one container and kind differ only in letters `i` |
| DownwardApi.ContainerGains | pkg/webhook/webhook.go:506-564 | If something was counted, each container's env gains exactly CONTAINER_NAME with the container's own name when it exposes hugepages and lacks it, its mounts exactly the read-only mount at the fixed place when missing, and nothing else |
| Reinvocation.QuietExactly | pkg/webhook/webhook.go:903-922 | On a document as a first round leaves it, the transform of any plan changes nothing exactly if the pod already has the resources, names, annotations, labels, mounts and volume it asks for |
| Reinvocation.ReinvocationExact | pkg/webhook/webhook.go:813-944 | For every patched pod the second answer: a bad request or a denial if its selections became malformed or are refused, else a patch that applies, and that changes nothing exactly if the changed pod is quiet under the second plan |
| Reinvocation.KeptNetworksExact | pkg/webhook/webhook.go:903-922 | If nothing was counted or the injections keep the pod's own network annotations, the second patch changes nothing exactly when nothing was counted, or existing resources are not honored and it is not the first round that gave container 0, still lacking CONTAINER_NAME, its first exposed hugepages |
| Reinvocation.TransformFixed | pkg/webhook/webhook.go:903-922 | The transform is idempotent exactly under that condition |
| Reinvocation.ReplacedNetworkDisturbs | pkg/webhook/webhook.go:717-742 | Inputs on which every second answer changes the pod: an injection replaces the network the pod selects by one with another resource |
| NadCache.KeyInjective | pkg/tools/cache.go:130-132 | A cache key determines the namespace and the name, for namespaces without `/` |
| NadCache.LookupExactly | pkg/webhook/webhook.go:365-376 | A hit is the cache's entry under `namespace/name`; on a miss the network is found exactly if the API server has it, with its own annotations, empty for nil |
| NadCache.NetAttachDefCache.constructor | pkg/tools/cache.go:43-46 | The cache starts empty |
| NadCache.NetAttachDefCache.Put | pkg/tools/cache.go:107-111 | Stores the annotations under the key and nothing else |
| NadCache.NetAttachDefCache.Remove | pkg/tools/cache.go:124-128 | Removes the key and nothing else |
| NadCache.NetAttachDefCache.Get | pkg/tools/cache.go:115-122 | The stored annotations; a missing key and nil annotations look the same |
| NadCache.NetAttachDefCache.OnAdd | pkg/tools/cache.go:56-61 | The whole table after an add event |
| NadCache.NetAttachDefCache.OnUpdate | pkg/tools/cache.go:62-73 | The whole table after an update event: unchanged for an equal resource version, else removed and put |
| NadCache.NetAttachDefCache.OnDelete | pkg/tools/cache.go:74-79 | The whole table after a delete event |
| CacheSystem.StepKeepsInv | pkg/tools/cache.go:55-80 | Every step of writer, informer and handler keeps the invariant tying the table, the handler's half-done update and the pending events to the store |
| CacheSystem.CacheAgrees | pkg/tools/cache.go:55-80 | At every point of every run, finishing the update in flight and replaying the pending events yields the API server's store; a drained cache is the store |
| CacheSystem.ShownOnce | pkg/tools/cache.go:107-132 | A store determines the table that shows it |
| CacheSystem.ReadsRefineStore | pkg/webhook/webhook.go:365-376 | A read that looks in the table in one state and falls back to the server in any later one returns what the server held at some point not before the table's replay position; a miss is the server's answer at that moment; with a drained cache a hit is the store's answer too |
| Injections.UserDefinedInjections.constructor | pkg/userdefinedinjections/userdefinedinjections.go:26-29 | The table starts empty |
| Injections.UserDefinedInjections.SetUserDefinedInjections | pkg/userdefinedinjections/userdefinedinjections.go:32-92 | The whole table after a poll, for some iteration order |
| Injections.UserDefinedInjections.AbsorbEntries | pkg/userdefinedinjections/userdefinedinjections.go:52-74 | The decode loop with its reused variable; storing only changed entries is storing all |
| Injections.UserDefinedInjections.RemoveStale | pkg/userdefinedinjections/userdefinedinjections.go:76-83 | Deleting while iterating leaves exactly the keys still configured |
| Injections.UserDefinedInjections.CreateUserDefinedPatch | pkg/userdefinedinjections/userdefinedinjections.go:95-112 | The matching injections in the order visited |
| Injections.ReconciledTable | pkg/userdefinedinjections/userdefinedinjections.go:52-83 | With entries each complete or bad: complete ones hold what they say, bad ones keep their old value or stay absent, stale keys are gone |
| Injections.HistoryFreeExactly | pkg/userdefinedinjections/userdefinedinjections.go:52-83 | The table after a poll is the same for all prior tables and iteration orders exactly if every entry decodes and states `/metadata/annotations`, and an operation or value that one entry omits no entry states other than as empty; it then holds each entry on its own |
| Injections.CompleteIsSelfContained | pkg/userdefinedinjections/userdefinedinjections.go:52-83 | With complete entries the table does not depend on the prior table or the iteration order |
| Injections.CarryOverShows | pkg/userdefinedinjections/userdefinedinjections.go:52-58 | Two entries, one stating operation, path and value, the other a value only: the second is stored in one order and not in the other |
| Injections.UndecodedEntryCarries | pkg/userdefinedinjections/userdefinedinjections.go:58-62 | An entry that fails to decode is never stored but still lends its path to the one visited next |
| Injections.AfterConfigExactly | pkg/userdefinedinjections/userdefinedinjections.go:32-92 | A missing file or section clears the table, an unreadable one keeps it, a readable one leaves none but its keys and stores its self-contained entries as they stand |
| Injections.UnreadPollsAreInert | cmd/webhook/main.go:263-275 | Polls that fail or cannot be read can be deleted from a run without effect on the table |
| Injections.RunsStoreOnlyAnnotations | pkg/userdefinedinjections/userdefinedinjections.go:63-73 | Over every run of polls, every stored injection has the path `/metadata/annotations` |
| Injections.LowersToTrue | pkg/userdefinedinjections/userdefinedinjections.go:106 | A label value asks for an injection exactly when it spells "true" in any mix of cases |
| Injections.MatchingPermutes | pkg/userdefinedinjections/userdefinedinjections.go:102-109 | Whatever order the table is visited in, a pod gets the same injections up to permutation |
| Injections.MatchingExact | pkg/userdefinedinjections/userdefinedinjections.go:102-109 | A pod gets exactly the stored injections whose key labels it so, each once |
| Switches.ControlSwitches.InitControlSwitches | pkg/controlswitches/controlswitches.go:79-103 | Active and initial states are the flags; the resource-name keys are the trimmed parts of theirs |
| Switches.ControlSwitches.SetFeatureToState | pkg/controlswitches/controlswitches.go:149-159 | One feature gets its configured state, or its initial one if not configured |
| Switches.ControlSwitches.SetAllFeaturesToInitialState | pkg/controlswitches/controlswitches.go:138-146 | Both features return to their initial states |
| Switches.ControlSwitches.ProcessControlSwitchesConfigMap | pkg/controlswitches/controlswitches.go:163-191 | The whole configuration after a poll; a missing file or section changes nothing |
| Switches.AfterConfigExactly | pkg/controlswitches/controlswitches.go:163-191 | A missing file or section changes nothing; an unreadable one restores the initial states; a readable one decides each switch, by its entry or its initial state |
| Switches.ResourceNameKeysTrimmed | pkg/controlswitches/controlswitches.go:94-103 | A flag of comma-separated keys with any white space around them yields the keys |
| Webhook.EnvironmentSwitches | pkg/controlswitches/controlswitches.go:109-115 | Which configuration entry decides about hugepages and which about honoring resources |
| Switches.InitialStatesNeverChange | pkg/controlswitches/controlswitches.go:138-191 | No run of polls changes an initial state or anything but the two features |
| Switches.LastDecisivePollRules | cmd/webhook/main.go:263-275 | The last poll with malformed JSON or a features section alone decides each active state |
| Switches.IndecisivePollsAreInert | cmd/webhook/main.go:263-275 | Polls that say nothing about features can be deleted from a run without effect |

## Left out

- HTTP, the encoding of admission reviews, logging, and flag parsing: input and output only. An empty patch, which Go prints as `null`, is the empty list here.
- The API calls behind the namespace of a pod's owner: their result is part of the request.
- What encoding/json fills in of a pod that does not decode: an abstract function, so nothing is said of the patch for half a pod.
- The REST call for one NAD: the API server is a map from names to annotations.
- JSON text: documents are trees, quantity texts are their values, member names are compared exactly and are not repeated, and null elements in the pod's or a JSON selection's lists are not modelled.
- Injection values that are not maps of strings to strings, and missing ones when they are used: the code's type assertions fail on them; here a missing value adds nothing.
- 64-bit overflow of resource counts: counts and quantities are unbounded.
- Starting and stopping the informer, and its tombstones: timing and library behaviour.
- The installer, certificates, TLS settings, the health server and trivial getters: external effects or nothing to prove.
- Patch operations other than `add`: none is emitted.
- Webhook.MutateHandler: reads the cache, the API server and the switches in one state, because locking per lookup is covered by `CacheSystem.ReadsRefineStore`; it does not model a poll between two reads of the switches.
- Injections.LowersToTrue: lower-casing is exact for ASCII letters only; no other letter lowers to a letter of "true".
- CacheSystem.ReadsRefineStore: for namespaces without `/`, which is all that Kubernetes admits.
- CacheSystem.CacheAgrees: writes always change the resource version, as the API server guarantees, so an update with an equal version repeats the object.
- HugepageExposure.PathsDistinctExactly: for unique container names without `_`, which Kubernetes enforces.
- Reinvocation.ReinvocationExact: for unchanged NADs, injections and switches between the two invocations.
- DownwardApi.VolumeFilesDistinctExactly: for unique container names without `_`, which Kubernetes enforces.
