/**
 The cache of network attachment definitions (NADs): the object the informer's handlers write
 and the webhook reads.
 */
module NadCache {
  import opened Wrappers
  import opened Text

  // Annotations of a NAD; None is Go's nil map.
  type Annotations = Option<map<string, string>>

  type Table = map<string, Annotations>

  datatype NadName = NadName(namespace: string, name: string)

  /** What the API server holds. */
  type Store = map<NadName, Annotations>

  function GetKey(namespace: string, networkName: string): string {
    namespace + "/" + networkName
  }

  /** Namespaces contain no '/', so a key determines the namespace and the name. */
  lemma KeyInjective(a: NadName, b: NadName)
    requires '/' !in a.namespace && '/' !in b.namespace
    requires GetKey(a.namespace, a.name) == GetKey(b.namespace, b.name)
    ensures a == b
  {
    var key := GetKey(a.namespace, a.name);
    assert key == a.namespace + ['/'] + a.name == b.namespace + ['/'] + b.name;
    SplitCons(a.namespace, a.name, '/');
    SplitCons(b.namespace, b.name, '/');
    assert a.namespace == Split(key, '/')[0] == b.namespace;
    assert a.name == key[|a.namespace| + 1..];
    assert b.name == key[|b.namespace| + 1..];
  }

  /** The result of Get: a missing key and nil annotations look the same. */
  function Cached(table: Table, namespace: string, networkName: string): Annotations {
    var key := GetKey(namespace, networkName);
    if key in table then table[key] else None
  }

  /** The API server's own answer: None when there is no such NAD; nil annotations read as empty. */
  function DirectLookup(store: Store, namespace: string, networkName: string): Option<map<string, string>> {
    var name := NadName(namespace, networkName);
    if name !in store then None
    else if store[name].None? then Some(map[])
    else store[name]
  }

  /** What the webhook uses: the cache, and the API server on a miss. */
  function Lookup(table: Table, store: Store, namespace: string, networkName: string): Option<map<string, string>> {
    var cached := Cached(table, namespace, networkName);
    if cached.Some? then cached else DirectLookup(store, namespace, networkName)
  }

  /** The cache has nothing for the network: no entry, or one without annotations. */
  predicate Misses(table: Table, namespace: string, networkName: string) {
    namespace + "/" + networkName !in table || table[namespace + "/" + networkName] == None
  }

  /**
   A hit is the cache's entry. On a miss the network is found exactly if the API server has it,
   with the server's own annotations, empty ones for nil.
   */
  lemma LookupExactly(table: Table, store: Store, namespace: string, networkName: string)
    ensures var name, found := NadName(namespace, networkName), Lookup(table, store, namespace, networkName);
            && (!Misses(table, namespace, networkName) ==> found == table[namespace + "/" + networkName])
            && (Misses(table, namespace, networkName) ==>
                  && (found.Some? <==> name in store)
                  && (name in store && store[name].Some? ==> found == store[name])
                  && (name in store && store[name].None? ==> found == Some(map[])))
    ensures DirectLookup(store, namespace, networkName) == Lookup(map[], store, namespace, networkName)
  {
  }

  /** A NAD as an event handler receives it. */
  datatype Nad = Nad(name: NadName, version: nat, annotations: Annotations)

  function PutNad(table: Table, nad: Nad): Table {
    table[GetKey(nad.name.namespace, nad.name.name) := nad.annotations]
  }

  function RemoveNad(table: Table, name: NadName): Table {
    table - {GetKey(name.namespace, name.name)}
  }

  class NetAttachDefCache {
    var networkAnnotationsMap: Table

    constructor ()
      ensures networkAnnotationsMap == map[]
    {
      networkAnnotationsMap := map[];
    }

    method Put(namespace: string, networkName: string, annotations: Annotations)
      modifies this
      ensures networkAnnotationsMap == old(networkAnnotationsMap)[GetKey(namespace, networkName) := annotations]
    {
      networkAnnotationsMap := networkAnnotationsMap[GetKey(namespace, networkName) := annotations];
    }

    method Remove(namespace: string, networkName: string)
      modifies this
      ensures networkAnnotationsMap == old(networkAnnotationsMap) - {GetKey(namespace, networkName)}
    {
      networkAnnotationsMap := networkAnnotationsMap - {GetKey(namespace, networkName)};
    }

    method Get(namespace: string, networkName: string) returns (annotations: Annotations)
      ensures annotations == Cached(networkAnnotationsMap, namespace, networkName)
    {
      if GetKey(namespace, networkName) in networkAnnotationsMap {
        return networkAnnotationsMap[GetKey(namespace, networkName)];
      }
      return None;
    }

    method OnAdd(nad: Nad)
      modifies this
      ensures networkAnnotationsMap == PutNad(old(networkAnnotationsMap), nad)
    {
      Put(nad.name.namespace, nad.name.name, nad.annotations);
    }

    method OnUpdate(oldNad: Nad, newNad: Nad)
      modifies this
      ensures networkAnnotationsMap ==
              if oldNad.version == newNad.version then old(networkAnnotationsMap)
              else PutNad(RemoveNad(old(networkAnnotationsMap), oldNad.name), newNad)
    {
      if oldNad.version == newNad.version {
        return;
      }
      Remove(oldNad.name.namespace, oldNad.name.name);
      Put(newNad.name.namespace, newNad.name.name, newNad.annotations);
    }

    method OnDelete(nad: Nad)
      modifies this
      ensures networkAnnotationsMap == RemoveNad(old(networkAnnotationsMap), nad.name)
    {
      Remove(nad.name.namespace, nad.name.name);
    }
  }
}
