/**
 The NAD cache as a step system: the API server's store changes, the informer delivers one
 event per change in order, a handler applies it (an update in two separately locked steps),
 and readers look in the table at any moment.
 */
module CacheSystem {
  import opened Wrappers
  import opened Text
  import opened Orders
  import opened NadCache

  /** The API server's NADs by name, with their resource versions. */
  type Nads = map<NadName, Nad>

  datatype Event = Added(nad: Nad) | Updated(oldNad: Nad, newNad: Nad) | Deleted(nad: Nad)

  /** Where the event handler is: between events, or between the two halves of an update. */
  datatype Handler = Idle | Removed(newNad: Nad)

  // `history` lists the stores the informer has been told of, the current one last; the first
  // `synced` of them are the partial stores of the initial listing.
  datatype System = System(
    store: Nads,
    nextVersion: nat,
    queue: seq<Event>,
    handler: Handler,
    table: Table,
    history: seq<Nads>,
    synced: nat
  )

  datatype Action =
    | Create(name: NadName, annotations: Annotations)
    | Write(name: NadName, annotations: Annotations)
    | Erase(name: NadName)
    | Resync(name: NadName)     // the informer repeats the current object
    | Deliver                   // the handler takes the next event
    | Finish                    // the handler completes an update

  // ---------- steps ----------

  predicate Enabled(s: System, a: Action) {
    match a
    case Create(name, _) => name !in s.store && '/' !in name.namespace
    case Write(name, _) => name in s.store
    case Erase(name) => name in s.store
    case Resync(name) => name in s.store
    case Deliver => s.handler.Idle? && s.queue != []
    case Finish => s.handler.Removed?
  }

  function Changed(s: System, store: Nads, event: Event): System {
    s.(store := store, nextVersion := s.nextVersion + 1, queue := s.queue + [event], history := s.history + [store])
  }

  function Delivered(s: System): System
    requires s.queue != []
  {
    var rest := s.(queue := s.queue[1..]);
    match s.queue[0]
    case Added(nad) => rest.(table := PutNad(s.table, nad))
    case Deleted(nad) => rest.(table := RemoveNad(s.table, nad.name))
    case Updated(oldNad, newNad) =>
      if oldNad.version == newNad.version then rest
      else rest.(table := RemoveNad(s.table, oldNad.name), handler := Removed(newNad))
  }

  function Step(s: System, a: Action): System
    requires Enabled(s, a)
  {
    match a
    case Create(name, annotations) =>
      var nad := Nad(name, s.nextVersion, annotations);
      Changed(s, s.store[name := nad], Added(nad))
    case Write(name, annotations) =>
      var nad := Nad(name, s.nextVersion, annotations);
      Changed(s, s.store[name := nad], Updated(s.store[name], nad))
    case Erase(name) => Changed(s, s.store - {name}, Deleted(s.store[name]))
    case Resync(name) => Changed(s, s.store, Updated(s.store[name], s.store[name]))
    case Deliver => Delivered(s)
    case Finish => s.(table := PutNad(s.table, s.handler.newNad), handler := Idle)
  }

  /** The store the table has caught up with. */
  function Position(s: System): int {
    |s.history| - 1 - |s.queue|
  }

  // ---------- what a table has to do with a store ----------

  predicate WellNamed(store: Nads) {
    forall name :: name in store ==> store[name].name == name && '/' !in name.namespace
  }

  function Entry(table: Table, name: NadName): Option<Annotations> {
    var key := GetKey(name.namespace, name.name);
    if key in table then Some(table[key]) else None
  }

  /** The table holds exactly the store's annotations under the store's keys. */
  ghost predicate Shows(table: Table, store: Nads) {
    && (forall name: NadName {:trigger Entry(table, name)} :: '/' !in name.namespace ==>
          Entry(table, name) == if name in store then Some(store[name].annotations) else None)
    && forall key :: key in table ==> '/' in key
  }

  /** A store determines the table that shows it. */
  lemma ShownOnce(a: Table, b: Table, store: Nads)
    requires Shows(a, store) && Shows(b, store)
    ensures a == b
  {
    forall key | key in a || key in b ensures key in a && key in b && a[key] == b[key] {
      var name := NameOf(key);
      assert Entry(a, name) == Entry(b, name);
    }
  }

  /** Every text with a '/' is the key of a name. */
  lemma NameOf(key: string) returns (name: NadName)
    requires '/' in key
    ensures '/' !in name.namespace && GetKey(name.namespace, name.name) == key
  {
    var parts := Split(key, '/');
    JoinSplit(key, '/');
    assert '/' !in parts[0];
    name := NadName(parts[0], Join(parts[1..], '/'));
  }

  lemma PutShows(table: Table, store: Nads, nad: Nad)
    requires Shows(table, store) && '/' !in nad.name.namespace
    ensures Shows(PutNad(table, nad), store[nad.name := nad])
  {
    var after, nads := PutNad(table, nad), store[nad.name := nad];
    var key := GetKey(nad.name.namespace, nad.name.name);
    assert key[|nad.name.namespace|] == '/';
    forall name: NadName | '/' !in name.namespace
      ensures Entry(after, name) == if name in nads then Some(nads[name].annotations) else None
    {
      assert Entry(table, name) == if name in store then Some(store[name].annotations) else None;
      if GetKey(name.namespace, name.name) == key { KeyInjective(name, nad.name); }
    }
  }

  lemma RemoveShows(table: Table, store: Nads, gone: NadName)
    requires Shows(table, store) && '/' !in gone.namespace
    ensures Shows(RemoveNad(table, gone), store - {gone})
  {
    var after, nads := RemoveNad(table, gone), store - {gone};
    forall name: NadName | '/' !in name.namespace
      ensures Entry(after, name) == if name in nads then Some(nads[name].annotations) else None
    {
      assert Entry(table, name) == if name in store then Some(store[name].annotations) else None;
      if GetKey(name.namespace, name.name) == GetKey(gone.namespace, gone.name) { KeyInjective(name, gone); }
    }
  }

  // ---------- the invariant ----------

  /** The event that takes one store to the next. */
  predicate Describes(before: Nads, event: Event, after: Nads) {
    match event
    case Added(nad) => nad.name !in before && after == before[nad.name := nad]
    case Deleted(nad) => nad.name in before && after == before - {nad.name}
    case Updated(oldNad, newNad) =>
      && oldNad.name == newNad.name && oldNad.name in before && before[oldNad.name] == oldNad
      && after == before[newNad.name := newNad]
      && (oldNad.version == newNad.version ==> oldNad == newNad)
  }

  ghost predicate InFlightOk(s: System, reached: Nads) {
    match s.handler
    case Idle => Shows(s.table, reached)
    case Removed(nad) => nad.name in reached && reached[nad.name] == nad && Shows(s.table, reached - {nad.name})
  }

  /** The pending events lead from the store the table has reached to the current one. */
  predicate QueueOk(history: seq<Nads>, queue: seq<Event>) {
    && |queue| < |history|
    && forall i {:trigger queue[i]} :: 0 <= i < |queue| ==>
         Describes(history[|history| - 1 - |queue| + i], queue[i], history[|history| - |queue| + i])
  }

  predicate AllWellNamed(history: seq<Nads>) {
    forall i :: 0 <= i < |history| ==> WellNamed(history[i])
  }

  predicate VersionsBelow(store: Nads, nextVersion: nat) {
    forall name :: name in store ==> store[name].version < nextVersion
  }

  /** The partial stores of the initial listing are parts of the listed store. */
  predicate ListingOk(history: seq<Nads>, synced: nat) {
    && synced < |history|
    && forall i, name :: 0 <= i <= synced && name in history[i] ==>
         name in history[synced] && history[synced][name] == history[i][name]
  }

  ghost predicate Inv(s: System) {
    && QueueOk(s.history, s.queue) && s.history[|s.history| - 1] == s.store
    && AllWellNamed(s.history) && VersionsBelow(s.store, s.nextVersion) && ListingOk(s.history, s.synced)
    && InFlightOk(s, s.history[Position(s)])
  }

  /** The partial stores of a listing, from empty to complete. */
  function Listing(store: Nads, order: seq<NadName>): seq<Nads>
    requires forall i :: 0 <= i < |order| ==> order[i] in store
  {
    seq(|order| + 1, n requires 0 <= n <= |order| => map name | name in order[..n] && name in store :: store[name])
  }

  /** At start the cache is empty and the informer announces every existing NAD. */
  function Initial(store: Nads, nextVersion: nat, order: seq<NadName>): System
    requires Enumerates(order, store.Keys)
  {
    System(store, nextVersion, seq(|order|, i requires 0 <= i < |order| => Added(store[order[i]])),
           Idle, map[], Listing(store, order), |order|)
  }

  lemma InitialInv(store: Nads, nextVersion: nat, order: seq<NadName>)
    requires Enumerates(order, store.Keys) && WellNamed(store) && VersionsBelow(store, nextVersion)
    ensures Inv(Initial(store, nextVersion, order))
  {
    var s := Initial(store, nextVersion, order);
    assert order[..|order|] == order;
    assert s.history[|order|] == store;
    assert s.history[0] == map[];
    forall i | 0 <= i < |order| ensures Describes(s.history[i], s.queue[i], s.history[i + 1]) {
      ListingGrows(store, order, i);
    }
  }

  lemma ListingGrows(store: Nads, order: seq<NadName>, i: nat)
    requires Enumerates(order, store.Keys) && WellNamed(store) && i < |order|
    ensures Describes(Listing(store, order)[i], Added(store[order[i]]), Listing(store, order)[i + 1])
  {
    assert order[..i + 1] == order[..i] + [order[i]];
    assert order[i] !in order[..i];
  }

  lemma QueueGrows(history: seq<Nads>, queue: seq<Event>, event: Event, store: Nads)
    requires QueueOk(history, queue) && Describes(history[|history| - 1], event, store)
    ensures QueueOk(history + [store], queue + [event])
  {
    var h, q := history + [store], queue + [event];
    forall i | 0 <= i < |q| ensures Describes(h[|h| - 1 - |q| + i], q[i], h[|h| - |q| + i]) {
      if i < |queue| { assert queue[i] == q[i]; }
    }
  }

  lemma QueueShrinks(history: seq<Nads>, queue: seq<Event>)
    requires QueueOk(history, queue) && queue != []
    ensures QueueOk(history, queue[1..])
    ensures Describes(history[|history| - 1 - |queue|], queue[0], history[|history| - |queue|])
  {
    var q := queue[1..];
    forall i | 0 <= i < |q| ensures Describes(history[|history| - 1 - |q| + i], q[i], history[|history| - |q| + i]) {
      assert queue[i + 1] == q[i];
    }
    assert Describes(history[|history| - 1 - |queue| + 0], queue[0], history[|history| - |queue| + 0]);
  }

  lemma ChangeKeepsInv(s: System, store: Nads, event: Event)
    requires Inv(s) && Describes(s.store, event, store) && WellNamed(store) && VersionsBelow(store, s.nextVersion + 1)
    ensures Inv(Changed(s, store, event))
  {
    QueueGrows(s.history, s.queue, event, store);
    assert Position(Changed(s, store, event)) == Position(s);
  }

  /** What an undisturbed handler does to the table. */
  function Applied(table: Table, event: Event): Table {
    match event
    case Added(nad) => PutNad(table, nad)
    case Deleted(nad) => RemoveNad(table, nad.name)
    case Updated(oldNad, newNad) =>
      if oldNad.version == newNad.version then table else PutNad(RemoveNad(table, oldNad.name), newNad)
  }

  lemma UpdateShows(table: Table, before: Nads, nad: Nad)
    requires Shows(table, before) && '/' !in nad.name.namespace
    ensures Shows(RemoveNad(table, nad.name), before[nad.name := nad] - {nad.name})
    ensures Shows(PutNad(RemoveNad(table, nad.name), nad), before[nad.name := nad])
  {
    RemoveShows(table, before, nad.name);
    PutShows(RemoveNad(table, nad.name), before - {nad.name}, nad);
    assert (before - {nad.name})[nad.name := nad] == before[nad.name := nad];
    assert before[nad.name := nad] - {nad.name} == before - {nad.name};
  }

  lemma EventShows(table: Table, before: Nads, event: Event, after: Nads)
    requires Shows(table, before) && WellNamed(before) && WellNamed(after) && Describes(before, event, after)
    ensures Shows(Applied(table, event), after)
    ensures event.Updated? && event.oldNad.version != event.newNad.version ==>
              Shows(RemoveNad(table, event.oldNad.name), after - {event.newNad.name})
  {
    match event
    case Added(nad) =>
      assert nad.name in after;
      PutShows(table, before, nad);
    case Deleted(nad) => RemoveShows(table, before, nad.name);
    case Updated(oldNad, newNad) =>
      assert newNad.name in after;
      if oldNad.version == newNad.version {
        assert after == before;
      } else {
        UpdateShows(table, before, newNad);
      }
  }

  lemma DeliveredInFlight(s: System)
    requires Inv(s) && s.handler.Idle? && s.queue != []
    ensures InFlightOk(Delivered(s), s.history[Position(s) + 1])
  {
    var p := Position(s);
    QueueShrinks(s.history, s.queue);
    EventShows(s.table, s.history[p], s.queue[0], s.history[p + 1]);
  }

  lemma DeliverKeepsInv(s: System)
    requires Inv(s) && s.handler.Idle? && s.queue != []
    ensures Inv(Delivered(s))
  {
    DeliveredInFlight(s);
    QueueShrinks(s.history, s.queue);
    assert Position(Delivered(s)) == Position(s) + 1;
  }

  lemma FinishKeepsInv(s: System)
    requires Inv(s) && s.handler.Removed?
    ensures Inv(Step(s, Finish))
  {
    var nad, reached := s.handler.newNad, s.history[Position(s)];
    PutShows(s.table, reached - {nad.name}, nad);
    assert (reached - {nad.name})[nad.name := nad] == reached;
    assert Position(Step(s, Finish)) == Position(s);
  }

  lemma StoreWellNamed(s: System)
    requires Inv(s)
    ensures WellNamed(s.store)
  {
  }

  /** Every enabled step keeps the invariant. */
  lemma StepKeepsInv(s: System, a: Action)
    requires Inv(s) && Enabled(s, a)
    ensures Inv(Step(s, a))
  {
    StoreWellNamed(s);
    match a {
      case Create(name, annotations) =>
        var nad := Nad(name, s.nextVersion, annotations);
        ChangeKeepsInv(s, s.store[name := nad], Added(nad));
      case Write(name, annotations) =>
        var nad := Nad(name, s.nextVersion, annotations);
        ChangeKeepsInv(s, s.store[name := nad], Updated(s.store[name], nad));
      case Erase(name) => ChangeKeepsInv(s, s.store - {name}, Deleted(s.store[name]));
      case Resync(name) =>
        assert s.store[name := s.store[name]] == s.store;
        ChangeKeepsInv(s, s.store, Updated(s.store[name], s.store[name]));
      case Deliver => DeliverKeepsInv(s);
      case Finish => FinishKeepsInv(s);
    }
  }

  // ---------- whole runs ----------

  /** A run: consecutive states are enabled steps of the listed actions. */
  ghost predicate IsRun(states: seq<System>, actions: seq<Action>) {
    && |states| == |actions| + 1
    && forall i :: 0 <= i < |actions| ==> Enabled(states[i], actions[i]) && states[i + 1] == Step(states[i], actions[i])
  }

  ghost predicate Starts(s: System) {
    exists store: Nads, nextVersion: nat, order: seq<NadName> ::
      && Enumerates(order, store.Keys) && WellNamed(store) && VersionsBelow(store, nextVersion)
      && s == Initial(store, nextVersion, order)
  }

  lemma {:induction false} RunInv(states: seq<System>, actions: seq<Action>, n: nat)
    requires IsRun(states, actions) && Starts(states[0]) && n < |states|
    ensures Inv(states[n])
  {
    if n == 0 {
      var store: Nads, nextVersion: nat, order: seq<NadName> :|
        && Enumerates(order, store.Keys) && WellNamed(store) && VersionsBelow(store, nextVersion)
        && states[0] == Initial(store, nextVersion, order);
      InitialInv(store, nextVersion, order);
    } else {
      RunInv(states, actions, n - 1);
      StepKeepsInv(states[n - 1], actions[n - 1]);
    }
  }

  /** The table once the handler has completed what it is doing. */
  function Completed(s: System): Table {
    if s.handler.Removed? then PutNad(s.table, s.handler.newNad) else s.table
  }

  /** The table after the handlers have run, undisturbed, on a list of events. */
  function Replay(table: Table, events: seq<Event>): Table
    decreases |events|
  {
    if events == [] then table else Replay(Applied(table, events[0]), events[1..])
  }

  lemma {:induction false} ReplayShows(table: Table, events: seq<Event>, history: seq<Nads>)
    requires QueueOk(history, events) && AllWellNamed(history)
    requires Shows(table, history[|history| - 1 - |events|])
    ensures Shows(Replay(table, events), history[|history| - 1])
    decreases |events|
  {
    if events != [] {
      QueueShrinks(history, events);
      EventShows(table, history[|history| - 1 - |events|], events[0], history[|history| - |events|]);
      ReplayShows(Applied(table, events[0]), events[1..], history);
    }
  }

  lemma CompletedShows(s: System)
    requires Inv(s)
    ensures Shows(Completed(s), s.history[Position(s)])
  {
    if s.handler.Removed? {
      var nad, reached := s.handler.newNad, s.history[Position(s)];
      PutShows(s.table, reached - {nad.name}, nad);
      assert (reached - {nad.name})[nad.name := nad] == reached;
    }
  }

  /**
   Agreement, at every point of every run: completing the update in flight and replaying the
   pending events on the table yields the API server's store. So a drained cache is the store.
   */
  lemma CacheAgrees(states: seq<System>, actions: seq<Action>, n: nat)
    requires IsRun(states, actions) && Starts(states[0]) && n < |states|
    ensures Shows(Replay(Completed(states[n]), states[n].queue), states[n].store)
    ensures states[n].queue == [] && states[n].handler.Idle? ==> Shows(states[n].table, states[n].store)
  {
    var s := states[n];
    RunInv(states, actions, n);
    CompletedShows(s);
    ReplayShows(Completed(s), s.queue, s.history);
  }

  // ---------- reads ----------

  function ApiStore(nads: Nads): Store {
    map name | name in nads :: nads[name].annotations
  }

  /** A read looks in the table in one state and, on a miss, asks the API server in a later one. */
  function Read(s: System, later: System, name: NadName): Option<map<string, string>> {
    Lookup(s.table, ApiStore(later.store), name.namespace, name.name)
  }

  function Direct(nads: Nads, name: NadName): Option<map<string, string>> {
    DirectLookup(ApiStore(nads), name.namespace, name.name)
  }

  /** The oldest real store a read may reflect. */
  function Floor(s: System): int {
    if Position(s) < s.synced then s.synced else Position(s)
  }

  lemma HitReflects(s: System, name: NadName)
    requires Inv(s) && '/' !in name.namespace
    ensures var cached := Cached(s.table, name.namespace, name.name);
            cached.Some? ==> cached == Direct(s.history[Floor(s)], name)
  {
    var reached := s.history[Position(s)];
    var shown := if s.handler.Removed? then reached - {s.handler.newNad.name} else reached;
    assert Shows(s.table, shown);
    assert Entry(s.table, name) == if name in shown then Some(shown[name].annotations) else None;
  }

  lemma {:induction false} HistoryGrows(states: seq<System>, actions: seq<Action>, n: nat, m: nat)
    requires IsRun(states, actions) && n <= m < |states|
    ensures states[n].history <= states[m].history
    decreases m
  {
    if n < m {
      HistoryGrows(states, actions, n, m - 1);
      StepExtendsHistory(states[m - 1], actions[m - 1]);
      assert states[m] == Step(states[m - 1], actions[m - 1]);
    }
  }

  lemma StepExtendsHistory(s: System, a: Action)
    requires Enabled(s, a)
    ensures s.history <= Step(s, a).history
  {
  }

  /**
   Refinement of direct lookups: whatever the handler is in the middle of, and whatever happens
   between the look in the table and the request to the API server, a read returns what the API
   server itself would have returned at some store it held at or after the replay position; a
   miss is answered by the store at that moment, and once the cache is drained a hit is the
   store's own answer too, nil annotations included.
   */
  lemma ReadsRefineStore(states: seq<System>, actions: seq<Action>, n: nat, m: nat, name: NadName)
    requires IsRun(states, actions) && Starts(states[0]) && n <= m < |states| && '/' !in name.namespace
    ensures var s, later := states[n], states[m];
            var miss := Cached(s.table, name.namespace, name.name).None?;
            && 0 <= Floor(s) < |s.history| <= |later.history|
            && (exists j :: Floor(s) <= j < |later.history| && Read(s, later, name) == Direct(later.history[j], name))
            && (miss ==> Read(s, later, name) == Direct(later.store, name))
            && (s.queue == [] && s.handler.Idle? ==> Read(s, later, name) == Direct(if miss then later.store else s.store, name))
  {
    var s, later := states[n], states[m];
    RunInv(states, actions, n);
    RunInv(states, actions, m);
    HistoryGrows(states, actions, n, m);
    HitReflects(s, name);
    var j := if Cached(s.table, name.namespace, name.name).Some? then Floor(s) else |later.history| - 1;
    assert later.history[Floor(s)] == s.history[Floor(s)];
    assert Read(s, later, name) == Direct(later.history[j], name);
  }
}
