/**
 Which hugepage resources of a container are published through the Downward API, and under
 which file names.
 */
module Hugepages {
  import opened Wrappers
  import opened Text
  import opened Orders
  import opened PodView

  datatype HugepageResource = HugepageResource(resourceName: string, containerName: string, path: string)

  datatype Kind = Requests | Limits

  /** The order in which a container's requests and limits are visited. */
  datatype KindOrders = KindOrders(requests: seq<string>, limits: seq<string>)

  const HUGEPAGES_PREFIX := "hugepages-"

  /** The capture of ^hugepages-(.+)$, where '.' matches anything but a line feed. */
  function HugepageSize(resourceName: string): Option<string> {
    if HUGEPAGES_PREFIX < resourceName && '\n' !in resourceName[|HUGEPAGES_PREFIX|..]
    then Some(resourceName[|HUGEPAGES_PREFIX|..])
    else None
  }

  function KindWord(kind: Kind): string {
    if kind.Requests? then "request" else "limit"
  }

  /** The Downward API file name. */
  function PathOf(kind: Kind, size: string, containerName: string): string {
    "hugepages_" + ReplaceAll(size, 'i', "") + "_" + KindWord(kind) + "_" + containerName
  }

  function QuantitiesOf(c: Container, kind: Kind): map<string, real> {
    if kind.Requests? then c.requests else c.limits
  }

  /** A hugepage resource the container asks for, with a non-zero quantity. */
  predicate Exposed(c: Container, kind: Kind, name: string) {
    var quantities := QuantitiesOf(c, kind);
    name in quantities && HugepageSize(name).Some? && quantities[name] != 0.0
  }

  predicate HasHugepages(c: Container) {
    || (exists name :: name in c.requests && Exposed(c, Requests, name))
    || (exists name :: name in c.limits && Exposed(c, Limits, name))
  }

  /** Go's pattern: the prefix, then at least one character, and no line feed. */
  lemma SizeExactly(resourceName: string, size: string)
    ensures HugepageSize(resourceName) == Some(size) <==> resourceName == "hugepages-" + size && size != "" && '\n' !in size
  {
    if resourceName == HUGEPAGES_PREFIX + size {
      assert resourceName[|HUGEPAGES_PREFIX|..] == size;
    }
  }

  /** What is exposed: the entries of the given kind called `hugepages-` and a size, unless zero. */
  lemma ExposedExactly(c: Container, kind: Kind, name: string)
    ensures Exposed(c, kind, name) <==>
            && (kind == Requests ==> name in c.requests && c.requests[name] != 0.0)
            && (kind == Limits ==> name in c.limits && c.limits[name] != 0.0)
            && exists size :: size != "" && '\n' !in size && name == "hugepages-" + size
  {
    if HugepageSize(name).Some? { SizeExactly(name, HugepageSize(name).value); }
    if size :| size != "" && '\n' !in size && name == "hugepages-" + size { SizeExactly(name, size); }
  }

  /** A container exposes hugepages if an entry of either kind is exposed. */
  lemma HasHugepagesExactly(c: Container)
    ensures HasHugepages(c) <==> exists kind, name :: Exposed(c, kind, name)
  {
    if kind, name :| Exposed(c, kind, name) {
      if kind.Requests? { assert name in c.requests; } else { assert name in c.limits; }
    }
  }

  function ResourceOf(c: Container, kind: Kind, name: string): HugepageResource
    requires Exposed(c, kind, name)
  {
    HugepageResource(KindWord(kind) + "s." + name, c.name, PathOf(kind, HugepageSize(name).value, c.name))
  }

  /** The resources of one container found while visiting `order`. */
  function ListOf(c: Container, kind: Kind, order: seq<string>): seq<HugepageResource> {
    if order == [] then []
    else
      var n := |order| - 1;
      ListOf(c, kind, order[..n]) + if Exposed(c, kind, order[n]) then [ResourceOf(c, kind, order[n])] else []
  }

  predicate ValidKindOrders(c: Container, o: KindOrders) {
    Enumerates(o.requests, c.requests.Keys) && Enumerates(o.limits, c.limits.Keys)
  }

  predicate ValidHugepageOrders(containers: seq<Container>, orders: seq<KindOrders>) {
    |orders| == |containers| && forall i :: 0 <= i < |containers| ==> ValidKindOrders(containers[i], orders[i])
  }

  lemma {:induction false} SomeHugepageOrders(containers: seq<Container>) returns (orders: seq<KindOrders>)
    ensures ValidHugepageOrders(containers, orders)
    decreases |containers|
  {
    if containers == [] {
      orders := [];
    } else {
      var n := |containers| - 1;
      var front := SomeHugepageOrders(containers[..n]);
      var requests := SomeOrder(containers[n].requests.Keys);
      var limits := SomeOrder(containers[n].limits.Keys);
      orders := front + [KindOrders(requests, limits)];
    }
  }

  function ListAll(containers: seq<Container>, orders: seq<KindOrders>): seq<HugepageResource>
    requires |orders| == |containers|
  {
    if containers == [] then []
    else
      var n := |containers| - 1;
      ListAll(containers[..n], orders[..n])
      + (ListOf(containers[n], Requests, orders[n].requests) + ListOf(containers[n], Limits, orders[n].limits))
  }
}
