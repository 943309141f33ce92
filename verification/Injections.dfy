/** The table of user-defined injections, reconciled with the control ConfigMap at every poll. */
module Injections {
  import opened Wrappers
  import opened Orders
  import opened Polls

  const ANNOTATIONS_PATH := "/metadata/annotations"

  /** A JSON patch operation whose value is a map of annotations, or Go's nil. */
  datatype Injection = Injection(op: string, path: string, value: Option<map<string, string>>)

  const BLANK := Injection("", "", None)

  /** The annotations an injection carries; none without a value. */
  function AnnotationsOf(p: Injection): map<string, string> {
    if p.value.Some? then p.value.value else map[]
  }

  type Injections = map<string, Injection>

  // ---------- decoding one entry ----------

  function Laid(field: Field<string>, under: string): string {
    if field.Given? then field.value else under
  }

  predicate Decodes(entry: Entry) {
    entry.Object? && !entry.op.Mistyped? && !entry.path.Mistyped?
  }

  /**
   json.Unmarshal of an entry into a variable that still holds the entry decoded before it: what
   is given is laid over what the variable held, even if another member is of a wrong type.
   */
  function Overlay(entry: Entry, carried: Injection): Injection {
    match entry
    case NotAnObject => carried
    case Object(op, path, value) =>
      Injection(Laid(op, carried.op), Laid(path, carried.path), if value.Some? then value.value else carried.value)
  }

  predicate Stores(entry: Entry, carried: Injection) {
    Decodes(entry) && Overlay(entry, carried).path == ANNOTATIONS_PATH
  }

  // ---------- one poll, as functions on the table ----------

  /** The table and the reused variable after the entries listed in `order`. */
  function Absorb(table: Injections, entries: map<string, Entry>, order: seq<string>): (Injections, Injection)
    requires forall i :: 0 <= i < |order| ==> order[i] in entries
    decreases |order|
  {
    if order == [] then (table, BLANK)
    else
      var n := |order| - 1;
      var (before, carried) := Absorb(table, entries, order[..n]);
      var patch := Overlay(entries[order[n]], carried);
      (if Stores(entries[order[n]], carried) then before[order[n] := patch] else before, patch)
  }

  function WithoutStale(table: Injections, entries: map<string, Entry>): Injections {
    map key | key in table && key in entries :: table[key]
  }

  function Reconciled(table: Injections, entries: map<string, Entry>, order: seq<string>): Injections
    requires forall i :: 0 <= i < |order| ==> order[i] in entries
  {
    WithoutStale(Absorb(table, entries, order).0, entries)
  }

  ghost predicate VisitsEntries(config: ConfigMap, order: seq<string>) {
    config.File? && config.injections.Readable? ==> Enumerates(order, config.injections.value.Keys)
  }

  function AfterConfig(table: Injections, config: ConfigMap, order: seq<string>): Injections
    requires VisitsEntries(config, order)
  {
    match config
    case NoFile => map[]
    case UnreadableFile => table
    case File(_, Absent) => map[]
    case File(_, Unreadable) => table
    case File(_, Readable(entries)) => Reconciled(table, entries, order)
  }

  /** strings.ToLower, exact for ASCII; no other character lowers to a letter of "true". */
  function ToLower(s: string): string {
    seq(|s|, i requires 0 <= i < |s| => if 'A' <= s[i] <= 'Z' then (s[i] as int + 32) as char else s[i])
  }

  predicate Requested(labels: map<string, string>, key: string) {
    key in labels && ToLower(labels[key]) == "true"
  }

  function RequestedKeys(labels: map<string, string>, order: seq<string>): seq<string>
    decreases |order|
  {
    if order == [] then []
    else
      var n := |order| - 1;
      RequestedKeys(labels, order[..n]) + if Requested(labels, order[n]) then [order[n]] else []
  }

  /** The injections for a pod with these labels, in the order the table is visited. */
  function Matching(table: Injections, labels: map<string, string>, order: seq<string>): seq<Injection>
    requires forall i :: 0 <= i < |order| ==> order[i] in table
    decreases |order|
  {
    if order == [] then []
    else
      var n := |order| - 1;
      Matching(table, labels, order[..n]) + if Requested(labels, order[n]) then [table[order[n]]] else []
  }

  // ---------- the object ----------

  class UserDefinedInjections {
    var Patchs: Injections

    constructor ()
      ensures Patchs == map[]
    {
      Patchs := map[];
    }

    /** `order` is the order in which Go happened to visit the entries. */
    method SetUserDefinedInjections(config: ConfigMap) returns (ghost order: seq<string>)
      modifies this
      ensures VisitsEntries(config, order)
      ensures Patchs == AfterConfig(old(Patchs), config, order)
    {
      order := [];
      if config.NoFile? {
        Patchs := map[];
        return;
      }
      if config.UnreadableFile? {
        return;
      }
      match config.injections {
        case Absent => Patchs := map[];
        case Unreadable =>
        case Readable(entries) =>
          order := AbsorbEntries(entries);
          RemoveStale(entries);
      }
    }

    method AbsorbEntries(entries: map<string, Entry>) returns (ghost order: seq<string>)
      modifies this
      ensures Enumerates(order, entries.Keys)
      ensures Patchs == Absorb(old(Patchs), entries, order).0
    {
      order := [];
      var patch := BLANK;
      var remaining := entries.Keys;
      while remaining != {}
        invariant remaining <= entries.Keys
        invariant Enumerates(order, entries.Keys - remaining)
        invariant (Patchs, patch) == Absorb(old(Patchs), entries, order)
        decreases remaining
      {
        var key :| key in remaining;
        ghost var before := order;
        order := order + [key];
        assert order[..|order| - 1] == before;
        remaining := remaining - {key};
        patch := Overlay(entries[key], patch);
        if Decodes(entries[key]) && patch.path == ANNOTATIONS_PATH {
          if key !in Patchs || Patchs[key] != patch {
            Patchs := Patchs[key := patch];
          } else {
            assert Patchs[key := patch] == Patchs;
          }
        }
      }
      assert entries.Keys - {} == entries.Keys;
    }

    method RemoveStale(entries: map<string, Entry>)
      modifies this
      ensures Patchs == WithoutStale(old(Patchs), entries)
    {
      var remaining := Patchs.Keys;
      while remaining != {}
        invariant remaining <= Patchs.Keys
        invariant forall key :: key in Patchs <==> key in old(Patchs) && (key in remaining || key in entries)
        invariant forall key :: key in Patchs ==> Patchs[key] == old(Patchs)[key]
        decreases remaining
      {
        var key :| key in remaining;
        remaining := remaining - {key};
        if key !in entries {
          Patchs := Patchs - {key};
        }
      }
      assert Patchs.Keys == WithoutStale(old(Patchs), entries).Keys;
    }

    method CreateUserDefinedPatch(labels: map<string, string>) returns (patch: seq<Injection>, ghost order: seq<string>)
      ensures Enumerates(order, Patchs.Keys)
      ensures patch == Matching(Patchs, labels, order)
    {
      patch, order := [], [];
      var remaining := Patchs.Keys;
      while remaining != {}
        invariant remaining <= Patchs.Keys
        invariant Enumerates(order, Patchs.Keys - remaining)
        invariant patch == Matching(Patchs, labels, order)
        decreases remaining
      {
        var key :| key in remaining;
        ghost var before := order;
        order := order + [key];
        assert order[..|order| - 1] == before;
        remaining := remaining - {key};
        if key in labels && ToLower(labels[key]) == "true" {
          patch := patch + [Patchs[key]];
        }
      }
      assert Patchs.Keys - {} == Patchs.Keys;
    }
  }

  // ---------- what a poll leaves behind ----------

  /** An entry that states every member of a supported injection: what was decoded before does not show. */
  predicate Complete(entry: Entry) {
    Decodes(entry) && entry.op.Given? && entry.path == Given(ANNOTATIONS_PATH) && entry.value.Some?
  }

  /** An entry that is never stored: undecodable, or for an unsupported path. */
  predicate Bad(entry: Entry) {
    !Decodes(entry) || (entry.path.Given? && entry.path.value != ANNOTATIONS_PATH)
  }

  /** The table holds the same under a key, or holds nothing under it as before. */
  predicate SameUnder(a: Injections, b: Injections, key: string) {
    (key in a <==> key in b) && (key in a ==> a[key] == b[key])
  }

  lemma {:induction false} AbsorbedEntry(table: Injections, entries: map<string, Entry>, order: seq<string>, key: string)
    requires forall i :: 0 <= i < |order| ==> order[i] in entries
    ensures var after := Absorb(table, entries, order).0;
            && (key !in order ==> SameUnder(table, after, key))
            && (key in order && Bad(entries[key]) ==> SameUnder(table, after, key))
            && (key in order && Complete(entries[key]) ==> key in after && after[key] == Overlay(entries[key], BLANK))
    decreases |order|
  {
    if order != [] {
      var n := |order| - 1;
      assert order == order[..n] + [order[n]];
      AbsorbedEntry(table, entries, order[..n], key);
    }
  }

  /**
   After a poll whose entries are each complete or bad: complete ones hold what they say, bad
   ones keep their previous value or stay absent, and everything else is gone. Neither the
   iteration order nor the rest of the previous table shows.
   */
  lemma ReconciledTable(table: Injections, entries: map<string, Entry>, order: seq<string>)
    requires Enumerates(order, entries.Keys)
    requires forall key :: key in entries ==> Complete(entries[key]) || Bad(entries[key])
    ensures var after := Reconciled(table, entries, order);
            && (forall key :: key in after <==> key in entries && (Complete(entries[key]) || key in table))
            && forall key :: key in after ==>
                 after[key] == if Complete(entries[key]) then Overlay(entries[key], BLANK) else table[key]
  {
    forall key | key in entries
      ensures var after := Absorb(table, entries, order).0;
              && (key in after <==> Complete(entries[key]) || key in table)
              && (key in after ==> after[key] == if Complete(entries[key]) then Overlay(entries[key], BLANK) else table[key])
    {
      AbsorbedEntry(table, entries, order, key);
    }
  }

  // ---------- when the table is history-free ----------

  /** The table after the poll is the same for all previous tables and all iteration orders. */
  ghost predicate HistoryFree(entries: map<string, Entry>) {
    forall table1, table2, order1, order2 ::
      Enumerates(order1, entries.Keys) && Enumerates(order2, entries.Keys) ==>
        Reconciled(table1, entries, order1) == Reconciled(table2, entries, order2)
  }

  predicate StatesNoOp(entry: Entry) {
    entry.Object? && entry.op.Given? ==> entry.op.value == ""
  }

  predicate StatesNoValue(entry: Entry) {
    entry.Object? && entry.value.Some? ==> entry.value.value.None?
  }

  /**
   What can be checked on the ConfigMap: every entry decodes and states the supported path, and
   whatever operation or value one entry leaves out no entry states, except as Go's zero value.
   */
  ghost predicate SelfContained(entries: map<string, Entry>) {
    forall key :: key in entries ==>
      && Decodes(entries[key]) && entries[key].path == Given(ANNOTATIONS_PATH)
      && (entries[key].op.Omitted? ==> forall other :: other in entries ==> StatesNoOp(entries[other]))
      && (entries[key].value.None? ==> forall other :: other in entries ==> StatesNoValue(entries[other]))
  }

  /** Nothing that some entry leaves out is carried along. */
  ghost predicate CarriesNothing(entries: map<string, Entry>, carried: Injection) {
    forall key :: key in entries && entries[key].Object? ==>
      && (entries[key].op.Omitted? ==> carried.op == "")
      && (entries[key].value.None? ==> carried.value == None)
  }

  lemma {:induction false} SelfContainedAbsorbs(table: Injections, entries: map<string, Entry>, order: seq<string>, key: string)
    requires SelfContained(entries)
    requires forall i :: 0 <= i < |order| ==> order[i] in entries
    ensures CarriesNothing(entries, Absorb(table, entries, order).1)
    ensures var after := Absorb(table, entries, order).0;
            key in order ==> key in after && after[key] == Overlay(entries[key], BLANK)
    decreases |order|
  {
    if order != [] {
      var n := |order| - 1;
      assert order == order[..n] + [order[n]];
      SelfContainedAbsorbs(table, entries, order[..n], key);
    }
  }

  lemma SelfContainedTable(table: Injections, entries: map<string, Entry>, order: seq<string>)
    requires SelfContained(entries) && Enumerates(order, entries.Keys)
    ensures Reconciled(table, entries, order) == map key | key in entries :: Overlay(entries[key], BLANK)
  {
    forall key | key in entries
      ensures var after := Absorb(table, entries, order).0;
              key in after && after[key] == Overlay(entries[key], BLANK)
    {
      SelfContainedAbsorbs(table, entries, order, key);
    }
    var after := Reconciled(table, entries, order);
    assert after.Keys == entries.Keys;
  }

  /** What comes later in the order leaves an entry alone. */
  lemma {:induction false} LaterEntriesKeep(table: Injections, entries: map<string, Entry>, first: seq<string>, rest: seq<string>, key: string)
    requires forall i :: 0 <= i < |first + rest| ==> (first + rest)[i] in entries
    requires key !in rest
    ensures forall i :: 0 <= i < |first| ==> first[i] in entries
    ensures SameUnder(Absorb(table, entries, first).0, Absorb(table, entries, first + rest).0, key)
    decreases |rest|
  {
    forall i | 0 <= i < |first| ensures first[i] in entries {
      assert (first + rest)[i] == first[i];
    }
    if rest == [] {
      assert first + rest == first;
    } else {
      var n := |rest| - 1;
      assert (first + rest)[..|first + rest| - 1] == first + rest[..n];
      assert (first + rest)[|first + rest| - 1] == rest[n];
      LaterEntriesKeep(table, entries, first, rest[..n], key);
    }
  }

  /** Any entries without repetition can come first. */
  lemma OrderStarting(keys: set<string>, first: seq<string>) returns (rest: seq<string>)
    requires NoDuplicates(first) && forall i :: 0 <= i < |first| ==> first[i] in keys
    ensures Enumerates(first + rest, keys)
    ensures forall key :: key in first ==> key !in rest
  {
    rest := SomeOrder(keys - set key | key in first);
    var order := first + rest;
    forall i, j | 0 <= i < j < |order| ensures order[i] != order[j] {
      if i < |first| <= j {
        assert rest[j - |first|] in keys - set key | key in first;
        assert first[i] in first;
      }
    }
    forall key | key in keys ensures key in order {
      if key !in first { assert key in rest; }
    }
  }

  lemma AbsorbSnoc(table: Injections, entries: map<string, Entry>, order: seq<string>, key: string)
    requires forall i :: 0 <= i < |order| ==> order[i] in entries
    requires key in entries
    ensures var (before, carried) := Absorb(table, entries, order);
            var patch := Overlay(entries[key], carried);
            Absorb(table, entries, order + [key]) == (if Stores(entries[key], carried) then before[key := patch] else before, patch)
  {
    assert (order + [key])[..|order|] == order;
  }

  /** An entry visited first is decoded alone. */
  lemma VisitedFirst(table: Injections, entries: map<string, Entry>, key: string) returns (order: seq<string>)
    requires key in entries
    ensures Enumerates(order, entries.Keys)
    ensures var after := Reconciled(table, entries, order);
            if Stores(entries[key], BLANK) then key in after && after[key] == Overlay(entries[key], BLANK)
            else SameUnder(table, after, key)
  {
    var rest := OrderStarting(entries.Keys, [key]);
    order := [key] + rest;
    LaterEntriesKeep(table, entries, [key], rest, key);
    AbsorbSnoc(table, entries, [], key);
    assert [] + [key] == [key];
  }

  /** An entry visited second is laid over the first. */
  lemma VisitedSecond(table: Injections, entries: map<string, Entry>, other: string, key: string) returns (order: seq<string>)
    requires key in entries && other in entries && key != other
    requires Stores(entries[key], Overlay(entries[other], BLANK))
    ensures Enumerates(order, entries.Keys)
    ensures var after := Reconciled(table, entries, order);
            key in after && after[key] == Overlay(entries[key], Overlay(entries[other], BLANK))
  {
    var rest := OrderStarting(entries.Keys, [other, key]);
    order := [other, key] + rest;
    LaterEntriesKeep(table, entries, [other, key], rest, key);
    AbsorbSnoc(table, entries, [], other);
    AbsorbSnoc(table, entries, [other], key);
    assert [] + [other] == [other] && [other] + [key] == [other, key];
  }

  /** An entry that is not stored when visited first leaves its previous value to show. */
  lemma StoredAlone(entries: map<string, Entry>, key: string)
    requires HistoryFree(entries) && key in entries
    ensures Stores(entries[key], BLANK)
  {
    var order1 := VisitedFirst(map[], entries, key);
    var order2 := VisitedFirst(map[key := BLANK], entries, key);
    assert Reconciled(map[], entries, order1) == Reconciled(map[key := BLANK], entries, order2);
  }

  /** What one entry leaves out and another states shows when that one is visited just before. */
  lemma NothingLaidUnder(entries: map<string, Entry>, key: string, other: string)
    requires HistoryFree(entries) && key in entries && other in entries
    ensures Overlay(entries[key], Overlay(entries[other], BLANK)) == Overlay(entries[key], BLANK)
  {
    StoredAlone(entries, key);
    if key != other {
      var table: Injections := map[];
      var order1 := VisitedFirst(table, entries, key);
      var order2 := VisitedSecond(table, entries, other, key);
      assert Reconciled(table, entries, order1) == Reconciled(table, entries, order2);
    }
  }

  lemma HistoryFreeIsSelfContained(entries: map<string, Entry>)
    requires HistoryFree(entries)
    ensures SelfContained(entries)
  {
    forall key | key in entries
      ensures Decodes(entries[key]) && entries[key].path == Given(ANNOTATIONS_PATH)
    {
      StoredAlone(entries, key);
    }
    forall key, other | key in entries && other in entries
      ensures entries[key].op.Omitted? ==> StatesNoOp(entries[other])
      ensures entries[key].value.None? ==> StatesNoValue(entries[other])
    {
      NothingLaidUnder(entries, key, other);
    }
  }

  /**
   A poll makes the table forget its history and the iteration order exactly when its entries
   are self-contained; the table then holds what each entry says on its own.
   */
  lemma HistoryFreeExactly(entries: map<string, Entry>)
    ensures HistoryFree(entries) <==> SelfContained(entries)
    ensures forall table, order :: SelfContained(entries) && Enumerates(order, entries.Keys) ==>
              Reconciled(table, entries, order) == map key | key in entries :: Overlay(entries[key], BLANK)
  {
    if HistoryFree(entries) { HistoryFreeIsSelfContained(entries); }
    forall table, order | SelfContained(entries) && Enumerates(order, entries.Keys)
      ensures Reconciled(table, entries, order) == map key | key in entries :: Overlay(entries[key], BLANK)
    {
      SelfContainedTable(table, entries, order);
    }
  }

  /** Complete entries are self-contained, so with complete entries replicas agree. */
  lemma CompleteIsSelfContained(entries: map<string, Entry>)
    requires forall key :: key in entries ==> Complete(entries[key])
    ensures SelfContained(entries) && HistoryFree(entries)
  {
    HistoryFreeExactly(entries);
  }

  /** An entry that is stored only on top of another one is there or not, depending on the order. */
  lemma CarriedEntryShows(first: string, second: string, whole: Entry, part: Entry)
    requires first != second
    requires Stores(part, Overlay(whole, BLANK)) && !Stores(part, BLANK)
    ensures var entries := map[first := whole, second := part];
            && Enumerates([first, second], entries.Keys) && Enumerates([second, first], entries.Keys)
            && second in Reconciled(map[], entries, [first, second])
            && second !in Reconciled(map[], entries, [second, first])
  {
    var entries := map[first := whole, second := part];
    AbsorbSnoc(map[], entries, [], first);
    AbsorbSnoc(map[], entries, [], second);
    AbsorbSnoc(map[], entries, [first], second);
    AbsorbSnoc(map[], entries, [second], first);
    assert [] + [first] == [first] && [] + [second] == [second];
    assert [first] + [second] == [first, second] && [second] + [first] == [second, first];
  }

  /**
   A configuration for which the iteration order shows: {"op": .., "path": .., "value": {..}} and
   {"value": {..}}. The second is stored only if it is visited after the first.
   */
  lemma CarryOverShows(first: string, second: string, value1: map<string, string>, value2: map<string, string>)
    requires first != second
    ensures var entries := map[first := Object(Given("add"), Given(ANNOTATIONS_PATH), Some(Some(value1))),
                               second := Object(Omitted, Omitted, Some(Some(value2)))];
            && Enumerates([first, second], entries.Keys) && Enumerates([second, first], entries.Keys)
            && second in Reconciled(map[], entries, [first, second])
            && second !in Reconciled(map[], entries, [second, first])
  {
    assert ANNOTATIONS_PATH != "";
    CarriedEntryShows(first, second, Object(Given("add"), Given(ANNOTATIONS_PATH), Some(Some(value1))),
                      Object(Omitted, Omitted, Some(Some(value2))));
  }

  /**
   Even an entry that does not decode is laid under the next one: {"op": 1, "path": ..} is never
   stored, but {"op": "add", "value": {..}} is, if it is visited after it.
   */
  lemma UndecodedEntryCarries(first: string, second: string, value: map<string, string>)
    requires first != second
    ensures var entries := map[first := Object(Mistyped, Given(ANNOTATIONS_PATH), None),
                               second := Object(Given("add"), Omitted, Some(Some(value)))];
            && Enumerates([first, second], entries.Keys) && Enumerates([second, first], entries.Keys)
            && second in Reconciled(map[], entries, [first, second])
            && second !in Reconciled(map[], entries, [second, first])
  {
    assert ANNOTATIONS_PATH != "";
    CarriedEntryShows(first, second, Object(Mistyped, Given(ANNOTATIONS_PATH), None),
                      Object(Given("add"), Omitted, Some(Some(value))));
  }

  // ---------- whole runs of polls ----------

  datatype Step = Step(poll: Poll, order: seq<string>)

  ghost predicate ValidRun(steps: seq<Step>) {
    forall i :: 0 <= i < |steps| && steps[i].poll.Fetched? ==> VisitsEntries(steps[i].poll.config, steps[i].order)
  }

  /** One poll, in the order in which its entries were visited. */
  ghost function AfterStep(table: Injections, step: Step): Injections
    requires step.poll.Fetched? ==> VisitsEntries(step.poll.config, step.order)
  {
    if step.poll.ApiError? then table else AfterConfig(table, step.poll.config, step.order)
  }

  ghost function AfterRun(steps: seq<Step>): Injections
    requires ValidRun(steps)
    decreases |steps|
  {
    if steps == [] then map[] else AfterStep(AfterRun(steps[..|steps| - 1]), steps[|steps| - 1])
  }

  predicate OnlyAnnotations(table: Injections) {
    forall key :: key in table ==> table[key].path == ANNOTATIONS_PATH
  }

  lemma {:induction false} AbsorbKeepsPaths(table: Injections, entries: map<string, Entry>, order: seq<string>)
    requires OnlyAnnotations(table)
    requires forall i :: 0 <= i < |order| ==> order[i] in entries
    ensures OnlyAnnotations(Absorb(table, entries, order).0)
    decreases |order|
  {
    if order != [] { AbsorbKeepsPaths(table, entries, order[..|order| - 1]); }
  }

  /** Whatever is polled, in whatever order, only annotation injections are ever stored. */
  lemma {:induction false} RunsStoreOnlyAnnotations(steps: seq<Step>)
    requires ValidRun(steps)
    ensures OnlyAnnotations(AfterRun(steps))
    decreases |steps|
  {
    if steps != [] {
      var n := |steps| - 1;
      RunsStoreOnlyAnnotations(steps[..n]);
      var before := AfterRun(steps[..n]);
      if steps[n].poll.Fetched? && steps[n].poll.config.File? && steps[n].poll.config.injections.Readable? {
        AbsorbKeepsPaths(before, steps[n].poll.config.injections.value, steps[n].order);
      }
    }
  }

  /**
   What a ConfigMap does to the table: without a file or an injections section it is cleared; it
   stays as it is if either cannot be read; otherwise no key but those of the section is left,
   and self-contained entries are all there, each as it stands.
   */
  lemma AfterConfigExactly(table: Injections, config: ConfigMap, order: seq<string>, key: string)
    requires VisitsEntries(config, order)
    ensures var after := AfterConfig(table, config, order);
            && (config.NoFile? || (config.File? && config.injections.Absent?) ==> after == map[])
            && (config.UnreadableFile? || (config.File? && config.injections.Unreadable?) ==> after == table)
            && (config.File? && config.injections.Readable? ==>
                  var entries := config.injections.value;
                  && (key in after ==> key in entries)
                  && (SelfContained(entries) && key in entries ==> key in after && after[key] == Overlay(entries[key], BLANK)))
  {
    if config.File? && config.injections.Readable? && SelfContained(config.injections.value) {
      SelfContainedTable(table, config.injections.value, order);
    }
  }

  /** A poll that cannot be read says nothing about injections. */
  predicate Tells(poll: Poll) {
    poll.Fetched? && !poll.config.UnreadableFile? && (poll.config.File? ==> !poll.config.injections.Unreadable?)
  }

  function Telling(steps: seq<Step>): seq<Step>
    decreases |steps|
  {
    if steps == [] then []
    else Telling(steps[..|steps| - 1]) + if Tells(steps[|steps| - 1].poll) then [steps[|steps| - 1]] else []
  }

  lemma AfterRunSnoc(steps: seq<Step>, step: Step)
    requires ValidRun(steps) && (step.poll.Fetched? ==> VisitsEntries(step.poll.config, step.order))
    ensures ValidRun(steps + [step]) && AfterRun(steps + [step]) == AfterStep(AfterRun(steps), step)
  {
    assert (steps + [step])[..|steps|] == steps;
  }

  lemma UnreadPollKeeps(table: Injections, step: Step)
    requires (step.poll.Fetched? ==> VisitsEntries(step.poll.config, step.order)) && !Tells(step.poll)
    ensures AfterStep(table, step) == table
  {
  }

  /** Polls that cannot be read, API errors included, can be deleted from a run without effect. */
  lemma {:induction false} UnreadPollsAreInert(steps: seq<Step>)
    requires ValidRun(steps)
    ensures ValidRun(Telling(steps)) && AfterRun(steps) == AfterRun(Telling(steps))
    decreases |steps|
  {
    if steps != [] {
      var front, last := steps[..|steps| - 1], steps[|steps| - 1];
      UnreadPollsAreInert(front);
      if Tells(last.poll) {
        AfterRunSnoc(Telling(front), last);
      } else {
        UnreadPollKeeps(AfterRun(front), last);
        assert Telling(front) + [] == Telling(front);
      }
    }
  }

  // ---------- which injections a pod gets ----------

  /** "true" in any mix of cases. */
  predicate SpellsTrue(s: string) {
    |s| == 4 && s[0] in "tT" && s[1] in "rR" && s[2] in "uU" && s[3] in "eE"
  }

  lemma LowersToTrue(s: string)
    ensures ToLower(s) == "true" <==> SpellsTrue(s)
  {
    var t := ToLower(s);
    if SpellsTrue(s) {
      assert t == [t[0], t[1], t[2], t[3]];
    }
    if t == "true" {
      assert t[0] == 't' && t[1] == 'r' && t[2] == 'u' && t[3] == 'e';
    }
  }

  /** A pod gets exactly the stored injections whose key labels it with "true", each once. */
  lemma {:induction false} MatchingExact(table: Injections, labels: map<string, string>, order: seq<string>)
    requires forall i :: 0 <= i < |order| ==> order[i] in table
    requires NoDuplicates(order)
    ensures var keys := RequestedKeys(labels, order);
            && NoDuplicates(keys)
            && (forall key :: key in keys <==> key in order && key in labels && SpellsTrue(labels[key]))
            && |Matching(table, labels, order)| == |keys|
            && forall i :: 0 <= i < |keys| ==> keys[i] in table && Matching(table, labels, order)[i] == table[keys[i]]
    decreases |order|
  {
    if order != [] {
      var n := |order| - 1;
      MatchingExact(table, labels, order[..n]);
      assert order == order[..n] + [order[n]];
      if order[n] in labels { LowersToTrue(labels[order[n]]); }
      assert order[n] !in order[..n];
    }
  }

  function InjectionAt(table: Injections, key: string): Injection {
    if key in table then table[key] else BLANK
  }

  lemma MatchingMapped(table: Injections, labels: map<string, string>, order: seq<string>, f: string -> Injection)
    requires Enumerates(order, table.Keys) && forall key :: key in table ==> f(key) == table[key]
    ensures Matching(table, labels, order) == Mapped(f, RequestedKeys(labels, order))
  {
    MatchingExact(table, labels, order);
  }

  lemma RequestedPermutes(table: Injections, labels: map<string, string>, order1: seq<string>, order2: seq<string>)
    requires Enumerates(order1, table.Keys) && Enumerates(order2, table.Keys)
    ensures multiset(RequestedKeys(labels, order1)) == multiset(RequestedKeys(labels, order2))
  {
    MatchingExact(table, labels, order1);
    MatchingExact(table, labels, order2);
    SameMembersPermute(RequestedKeys(labels, order1), RequestedKeys(labels, order2));
  }

  /** Whatever order the table is visited in, a pod gets the same injections, up to permutation. */
  lemma MatchingPermutes(table: Injections, labels: map<string, string>, order1: seq<string>, order2: seq<string>)
    requires Enumerates(order1, table.Keys) && Enumerates(order2, table.Keys)
    ensures multiset(Matching(table, labels, order1)) == multiset(Matching(table, labels, order2))
  {
    var f := key => InjectionAt(table, key);
    RequestedPermutes(table, labels, order1, order2);
    MappedPermutes(f, RequestedKeys(labels, order1), RequestedKeys(labels, order2));
    MatchingMapped(table, labels, order1, f);
    MatchingMapped(table, labels, order2, f);
  }
}
