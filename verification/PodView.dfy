/**
 The part of a pod the webhook looks at, and how it is read out of the pod's JSON document.
 */
module PodView {
  import opened JsonPatch

  datatype Container = Container(
    name: string,
    requests: map<string, real>,
    limits: map<string, real>,
    env: seq<string>,           // names of the environment variables
    volumeMounts: seq<string>   // names of the mounted volumes
  )

  datatype Pod = Pod(
    labels: map<string, string>,
    annotations: map<string, string>,
    nodeSelector: map<string, string>,
    volumes: seq<string>,       // names of the volumes
    containers: seq<Container>
  )

  // ---------- reading JSON the way encoding/json fills a Go value: absent and null read as zero ----------

  function Fields(j: Json): map<string, Json> {
    if j.Obj? then j.fields else map[]
  }

  function Items(j: Json): seq<Json> {
    if j.Arr? then j.elems else []
  }

  function Member(j: Json, key: string): Json {
    if key in Fields(j) then Fields(j)[key] else Null
  }

  function Text(j: Json): string {
    if j.Str? then j.s else ""
  }

  function Number(j: Json): real {
    if j.Num? then j.n else 0.0
  }

  function Strings(j: Json): map<string, string> {
    map key | key in Fields(j) :: Text(Fields(j)[key])
  }

  function Quantities(j: Json): map<string, real> {
    map key | key in Fields(j) :: Number(Fields(j)[key])
  }

  function Names(j: Json): seq<string> {
    seq(|Items(j)|, i requires 0 <= i < |Items(j)| => Text(Member(Items(j)[i], "name")))
  }

  function ContainerOf(j: Json): Container {
    var resources := Member(j, "resources");
    Container(
      Text(Member(j, "name")),
      Quantities(Member(resources, "requests")),
      Quantities(Member(resources, "limits")),
      Names(Member(j, "env")),
      Names(Member(j, "volumeMounts")))
  }

  function ContainersOf(items: seq<Json>): seq<Container> {
    seq(|items|, i requires 0 <= i < |items| => ContainerOf(items[i]))
  }

  function ContainerItems(doc: Json): seq<Json> {
    Items(Member(Member(doc, "spec"), "containers"))
  }

  function PodOf(doc: Json): Pod {
    var metadata, spec := Member(doc, "metadata"), Member(doc, "spec");
    Pod(
      Strings(Member(metadata, "labels")),
      Strings(Member(metadata, "annotations")),
      Strings(Member(spec, "nodeSelector")),
      Names(Member(spec, "volumes")),
      ContainersOf(ContainerItems(doc)))
  }

  // ---------- when decoding into the Go type succeeds ----------

  predicate IsStrings(j: Json) {
    j.Null? || (j.Obj? && forall key :: key in j.fields ==> IsText(j.fields[key]))
  }

  predicate IsQuantities(j: Json) {
    j.Null? || (j.Obj? && forall key :: key in j.fields ==> j.fields[key].Null? || j.fields[key].Num?)
  }

  /** A list of objects with a textual name, as env, volumeMounts, volumes and containers are. */
  predicate IsNamedList(j: Json) {
    j.Null? || (j.Arr? && forall i :: 0 <= i < |j.elems| ==> j.elems[i].Obj? && IsText(Member(j.elems[i], "name")))
  }

  predicate IsText(j: Json) {
    j.Null? || j.Str?
  }

  predicate IsObject(j: Json) {
    j.Null? || j.Obj?
  }

  predicate IsList(j: Json) {
    j.Null? || j.Arr?
  }

  predicate IsContainer(j: Json) {
    && j.Obj?
    && IsObject(Member(j, "resources"))
    && IsQuantities(Member(Member(j, "resources"), "requests"))
    && IsQuantities(Member(Member(j, "resources"), "limits"))
    && IsNamedList(Member(j, "env"))
    && IsNamedList(Member(j, "volumeMounts"))
  }

  predicate WellTyped(doc: Json) {
    var metadata, spec := Member(doc, "metadata"), Member(doc, "spec");
    && doc.Obj?
    && IsObject(metadata) && IsObject(spec)
    && IsText(Member(metadata, "namespace")) && IsList(Member(metadata, "ownerReferences"))
    && IsStrings(Member(metadata, "labels")) && IsStrings(Member(metadata, "annotations"))
    && IsStrings(Member(spec, "nodeSelector"))
    && IsNamedList(Member(spec, "volumes")) && IsNamedList(Member(spec, "containers"))
    && forall i :: 0 <= i < |ContainerItems(doc)| ==> IsContainer(ContainerItems(doc)[i])
  }

  // ---------- writing JSON ----------

  function Put(j: Json, key: string, value: Json): Json {
    Obj(Fields(j)[key := value])
  }

  function StringFields(m: map<string, string>): map<string, Json> {
    map key | key in m :: Str(m[key])
  }

  function NumberFields(m: map<string, real>): map<string, Json> {
    map key | key in m :: Num(m[key])
  }

  lemma StringsWritten(m: map<string, string>)
    ensures Strings(Obj(StringFields(m))) == m && IsStrings(Obj(StringFields(m)))
  {
  }

  /** Writing back what was read from a map of strings changes nothing. */
  lemma StringsReadBack(j: Json)
    requires j.Obj? && forall key :: key in j.fields ==> j.fields[key].Str?
    ensures Obj(StringFields(Strings(j))) == j
  {
    assert StringFields(Strings(j)) == j.fields;
  }

  lemma QuantitiesUpdated(j: Json, m: map<string, real>)
    requires IsQuantities(j)
    ensures Quantities(Obj(Fields(j) + NumberFields(m))) == Quantities(j) + m
    ensures IsQuantities(Obj(Fields(j) + NumberFields(m)))
  {
    var sum := Obj(Fields(j) + NumberFields(m));
    assert Quantities(sum).Keys == (Quantities(j) + m).Keys;
  }

  lemma NamesAppended(j: Json, item: Json)
    requires IsNamedList(j) && item.Obj? && IsText(Member(item, "name"))
    ensures Names(Arr(Items(j) + [item])) == Names(j) + [Text(Member(item, "name"))]
    ensures IsNamedList(Arr(Items(j) + [item]))
  {
  }

  // ---------- a pod written out in full reads back ----------

  function NamedList(names: seq<string>): Json {
    Arr(seq(|names|, i requires 0 <= i < |names| => Obj(map["name" := Str(names[i])])))
  }

  function ResourcesJson(c: Container): Json {
    Obj(map["requests" := Obj(NumberFields(c.requests)), "limits" := Obj(NumberFields(c.limits))])
  }

  function ContainerJson(c: Container): Json {
    Obj(map["name" := Str(c.name), "resources" := ResourcesJson(c), "env" := NamedList(c.env), "volumeMounts" := NamedList(c.volumeMounts)])
  }

  function MetadataJson(pod: Pod): Json {
    Obj(map["labels" := Obj(StringFields(pod.labels)), "annotations" := Obj(StringFields(pod.annotations))])
  }

  function ContainersJson(containers: seq<Container>): Json {
    Arr(seq(|containers|, i requires 0 <= i < |containers| => ContainerJson(containers[i])))
  }

  function SpecJson(pod: Pod): Json {
    Obj(map["nodeSelector" := Obj(StringFields(pod.nodeSelector)), "volumes" := NamedList(pod.volumes),
            "containers" := ContainersJson(pod.containers)])
  }

  function PodJson(pod: Pod): Json {
    Obj(map["metadata" := MetadataJson(pod), "spec" := SpecJson(pod)])
  }

  lemma NamedListReads(names: seq<string>)
    ensures Names(NamedList(names)) == names && IsNamedList(NamedList(names))
  {
  }

  lemma NumbersRead(m: map<string, real>)
    ensures Quantities(Obj(NumberFields(m))) == m && IsQuantities(Obj(NumberFields(m)))
  {
  }

  lemma ResourcesRead(c: Container)
    ensures Member(ResourcesJson(c), "requests") == Obj(NumberFields(c.requests))
    ensures Member(ResourcesJson(c), "limits") == Obj(NumberFields(c.limits))
  {
  }

  lemma ContainerMembers(c: Container)
    ensures Member(ContainerJson(c), "name") == Str(c.name) && Member(ContainerJson(c), "resources") == ResourcesJson(c)
    ensures Member(ContainerJson(c), "env") == NamedList(c.env)
    ensures Member(ContainerJson(c), "volumeMounts") == NamedList(c.volumeMounts)
  {
  }

  lemma ContainerReads(c: Container)
    ensures ContainerOf(ContainerJson(c)) == c && IsContainer(ContainerJson(c)) && IsText(Member(ContainerJson(c), "name"))
  {
    ContainerMembers(c);
    ResourcesRead(c);
    NumbersRead(c.requests);
    NumbersRead(c.limits);
    NamedListReads(c.env);
    NamedListReads(c.volumeMounts);
  }

  lemma ContainersRead(containers: seq<Container>)
    ensures ContainersOf(Items(ContainersJson(containers))) == containers
    ensures forall i :: 0 <= i < |containers| ==>
              IsContainer(Items(ContainersJson(containers))[i]) && IsText(Member(Items(ContainersJson(containers))[i], "name"))
  {
    forall i | 0 <= i < |containers|
      ensures var item := Items(ContainersJson(containers))[i];
              ContainerOf(item) == containers[i] && IsContainer(item) && IsText(Member(item, "name"))
    {
      ContainerReads(containers[i]);
    }
  }

  lemma MetadataReads(pod: Pod)
    ensures Member(MetadataJson(pod), "labels") == Obj(StringFields(pod.labels))
    ensures Member(MetadataJson(pod), "annotations") == Obj(StringFields(pod.annotations))
    ensures Member(MetadataJson(pod), "namespace") == Null && Member(MetadataJson(pod), "ownerReferences") == Null
  {
  }

  lemma SpecReads(pod: Pod)
    ensures Member(SpecJson(pod), "nodeSelector") == Obj(StringFields(pod.nodeSelector))
    ensures Member(SpecJson(pod), "volumes") == NamedList(pod.volumes)
    ensures Member(SpecJson(pod), "containers") == ContainersJson(pod.containers)
  {
  }

  /** Every pod can be written out as a document from which it is read back. */
  lemma PodRoundTrip(pod: Pod)
    ensures WellTyped(PodJson(pod)) && PodOf(PodJson(pod)) == pod
  {
    MetadataReads(pod);
    SpecReads(pod);
    StringsWritten(pod.labels);
    StringsWritten(pod.annotations);
    StringsWritten(pod.nodeSelector);
    NamedListReads(pod.volumes);
    ContainersRead(pod.containers);
    assert Member(PodJson(pod), "metadata") == MetadataJson(pod) && Member(PodJson(pod), "spec") == SpecJson(pod);
  }
}
