/**
 Network selections: the text of a network annotation and the list of networks it selects.
 The JSON form is read by an abstract decoder, None when the text is not such JSON.
 */
module Selections {
  import opened Wrappers
  import opened Text

  datatype Element = Element(namespace: string, name: string, interface_: string)

  type Decoder = string -> Option<seq<Element>>

  // ---------- one element ----------

  predicate IsAlphanumeric(c: char) {
    'a' <= c <= 'z' || '0' <= c <= '9'
  }

  /** ^[a-z0-9]([-a-z0-9]*[a-z0-9])?$ */
  predicate IsLabel(unit: string) {
    && unit != ""
    && IsAlphanumeric(unit[0]) && IsAlphanumeric(unit[|unit| - 1])
    && forall i {:trigger LabelCharAt(unit, i)} :: 0 <= i < |unit| ==> LabelCharAt(unit, i)
  }

  predicate LabelCharAt(unit: string, i: int)
    requires 0 <= i < |unit|
  {
    IsAlphanumeric(unit[i]) || unit[i] == '-'
  }

  predicate IsUnit(unit: string) {
    unit == "" || IsLabel(unit)
  }

  function ParseElement(selection: string, defaultNamespace: string): Option<Element> {
    var units := Split(selection, '/');
    if |units| > 2 then None
    else
      var namespace := if |units| == 1 then defaultNamespace else units[0];
      var parts := Split(units[|units| - 1], '@');
      if |parts| > 2 then None
      else
        var interface_ := if |parts| == 1 then "" else parts[1];
        if IsUnit(namespace) && IsUnit(parts[0]) && IsUnit(interface_)
        then Some(Element(namespace, parts[0], interface_))
        else None
  }

  function NameText(e: Element, hasInterface: bool): string {
    if hasInterface then e.name + "@" + e.interface_ else e.name
  }

  /** The grammar [namespace/]name[@interface], as a relation between a text and what it selects. */
  predicate Denotes(text: string, defaultNamespace: string, e: Element, hasNamespace: bool, hasInterface: bool) {
    && text == (if hasNamespace then e.namespace + "/" + NameText(e, hasInterface) else NameText(e, hasInterface))
    && (!hasNamespace ==> e.namespace == defaultNamespace)
    && (!hasInterface ==> e.interface_ == "")
    && IsUnit(e.namespace) && IsUnit(e.name) && IsUnit(e.interface_)
  }

  ghost predicate InGrammar(text: string, defaultNamespace: string) {
    exists e, n, i :: Denotes(text, defaultNamespace, e, n, i)
  }

  lemma UnitIsPlain(unit: string)
    requires IsUnit(unit)
    ensures '/' !in unit && '@' !in unit && ',' !in unit
  {
    forall i | 0 <= i < |unit| ensures unit[i] != '/' && unit[i] != '@' && unit[i] != ',' {
      assert unit != "" ==> LabelCharAt(unit, i);
    }
  }

  /** One or two parts: the text without a separator, or the two sides of its only one. */
  lemma SplitShort(text: string, sep: char)
    ensures |Split(text, sep)| == 1 ==> text == Split(text, sep)[0]
    ensures |Split(text, sep)| == 2 ==> text == Split(text, sep)[0] + [sep] + Split(text, sep)[1]
  {
    JoinSplit(text, sep);
    var parts := Split(text, sep);
    assert |parts| == 2 ==> parts[1..] == [parts[1]];
  }

  lemma SplitOptional(text: string, first: string, sep: char, second: string, present: bool)
    requires sep !in first && sep !in second
    requires text == if present then first + [sep] + second else second
    ensures Split(text, sep) == if present then [first, second] else [second]
  {
    SplitPlain(second, sep);
    if present { SplitCons(first, second, sep); }
  }

  lemma ParsedDenotes(text: string, defaultNamespace: string, e: Element)
    requires ParseElement(text, defaultNamespace) == Some(e)
    ensures exists n, i :: Denotes(text, defaultNamespace, e, n, i)
  {
    var units := Split(text, '/');
    var rest := units[|units| - 1];
    SplitShort(text, '/');
    SplitShort(rest, '@');
    var n, i := |units| == 2, |Split(rest, '@')| == 2;
    assert rest == NameText(e, i);
    assert Denotes(text, defaultNamespace, e, n, i);
  }

  lemma NameTextSplits(e: Element, hasInterface: bool)
    requires '/' !in e.name && '/' !in e.interface_ && '@' !in e.name && '@' !in e.interface_
    ensures '/' !in NameText(e, hasInterface)
    ensures Split(NameText(e, hasInterface), '@') == if hasInterface then [e.name, e.interface_] else [e.name]
  {
    if hasInterface {
      SplitOptional(NameText(e, true), e.name, '@', e.interface_, true);
    } else {
      SplitPlain(e.name, '@');
    }
  }

  lemma DenotedParses(text: string, defaultNamespace: string, e: Element, hasNamespace: bool, hasInterface: bool)
    requires Denotes(text, defaultNamespace, e, hasNamespace, hasInterface)
    ensures ParseElement(text, defaultNamespace) == Some(e)
  {
    UnitIsPlain(e.namespace);
    UnitIsPlain(e.name);
    UnitIsPlain(e.interface_);
    NameTextSplits(e, hasInterface);
    SplitOptional(text, e.namespace, '/', NameText(e, hasInterface), hasNamespace);
  }

  /** Parsing and the grammar agree, both ways. */
  lemma ElementExact(text: string, defaultNamespace: string, e: Element)
    ensures ParseElement(text, defaultNamespace) == Some(e) <==>
            exists n, i :: Denotes(text, defaultNamespace, e, n, i)
  {
    if ParseElement(text, defaultNamespace) == Some(e) {
      ParsedDenotes(text, defaultNamespace, e);
    }
    if n, i :| Denotes(text, defaultNamespace, e, n, i) {
      DenotedParses(text, defaultNamespace, e, n, i);
    }
  }

  lemma GrammarDecides(text: string, defaultNamespace: string)
    ensures ParseElement(text, defaultNamespace).Some? <==> InGrammar(text, defaultNamespace)
  {
    if ParseElement(text, defaultNamespace).Some? {
      ParsedDenotes(text, defaultNamespace, ParseElement(text, defaultNamespace).value);
    }
    if e, n, i :| Denotes(text, defaultNamespace, e, n, i) {
      DenotedParses(text, defaultNamespace, e, n, i);
    }
  }

  /** The four forms an element can be written in. */
  lemma ElementForms(namespace: string, name: string, interface_: string, defaultNamespace: string)
    requires IsLabel(namespace) && IsLabel(name) && IsLabel(interface_) && IsUnit(defaultNamespace)
    ensures ParseElement(namespace + "/" + name + "@" + interface_, defaultNamespace) == Some(Element(namespace, name, interface_))
    ensures ParseElement(namespace + "/" + name, defaultNamespace) == Some(Element(namespace, name, ""))
    ensures ParseElement(name + "@" + interface_, defaultNamespace) == Some(Element(defaultNamespace, name, interface_))
    ensures ParseElement(name, defaultNamespace) == Some(Element(defaultNamespace, name, ""))
  {
    assert namespace + "/" + name + "@" + interface_ == namespace + "/" + (name + "@" + interface_);
    FormParses(namespace + "/" + (name + "@" + interface_), defaultNamespace, Element(namespace, name, interface_), true, true);
    FormParses(namespace + "/" + name, defaultNamespace, Element(namespace, name, ""), true, false);
    FormParses(name + "@" + interface_, defaultNamespace, Element(defaultNamespace, name, interface_), false, true);
    FormParses(name, defaultNamespace, Element(defaultNamespace, name, ""), false, false);
  }

  lemma FormParses(text: string, defaultNamespace: string, e: Element, hasNamespace: bool, hasInterface: bool)
    requires IsUnit(e.namespace) && IsUnit(e.name) && IsUnit(e.interface_)
    requires hasNamespace || e.namespace == defaultNamespace
    requires hasInterface || e.interface_ == ""
    requires text == (if hasNamespace then e.namespace + "/" else "") + if hasInterface then e.name + "@" + e.interface_ else e.name
    ensures ParseElement(text, defaultNamespace) == Some(e)
  {
    assert "" + NameText(e, hasInterface) == NameText(e, hasInterface);
    DenotedParses(text, defaultNamespace, e, hasNamespace, hasInterface);
  }

  /** A label is one letter or digit, or a middle of such and '-' between two of them. */
  lemma LabelExactly(unit: string)
    ensures IsLabel(unit) <==>
            (|unit| == 1 && ('a' <= unit[0] <= 'z' || '0' <= unit[0] <= '9')) ||
            (exists first: char, middle: string, last: char ::
               && unit == [first] + middle + [last]
               && ('a' <= first <= 'z' || '0' <= first <= '9') && ('a' <= last <= 'z' || '0' <= last <= '9')
               && forall c :: c in middle ==> 'a' <= c <= 'z' || '0' <= c <= '9' || c == '-')
  {
    if IsLabel(unit) && |unit| > 1 {
      var middle := unit[1..|unit| - 1];
      assert unit == [unit[0]] + middle + [unit[|unit| - 1]];
      forall c | c in middle ensures 'a' <= c <= 'z' || '0' <= c <= '9' || c == '-' {
        var i :| 0 <= i < |middle| && middle[i] == c;
        assert LabelCharAt(unit, i + 1);
      }
    }
    if first: char, middle: string, last: char :|
      && unit == [first] + middle + [last]
      && ('a' <= first <= 'z' || '0' <= first <= '9') && ('a' <= last <= 'z' || '0' <= last <= '9')
      && forall c :: c in middle ==> 'a' <= c <= 'z' || '0' <= c <= '9' || c == '-'
    {
      forall i | 0 <= i < |unit| ensures LabelCharAt(unit, i) {
        if 0 < i < |unit| - 1 { assert unit[i] in middle; }
      }
    }
  }

  // ---------- the whole annotation ----------

  /** Every part, trimmed, as an element; None if one is malformed. */
  function ParseAll(parts: seq<string>, defaultNamespace: string): Option<seq<Element>>
    decreases |parts|
  {
    if parts == [] then Some([])
    else
      var before := ParseAll(parts[..|parts| - 1], defaultNamespace);
      var last := ParseElement(TrimSpace(parts[|parts| - 1]), defaultNamespace);
      if before.Some? && last.Some? then Some(before.value + [last.value]) else None
  }

  lemma {:induction false} ParseAllFails(parts: seq<string>, defaultNamespace: string, n: nat)
    requires n <= |parts| && ParseAll(parts[..n], defaultNamespace).None?
    ensures ParseAll(parts, defaultNamespace).None?
    decreases |parts|
  {
    if n < |parts| {
      assert parts[..|parts| - 1][..n] == parts[..n];
      ParseAllFails(parts[..|parts| - 1], defaultNamespace, n);
    } else {
      assert parts[..n] == parts;
    }
  }

  /** The comma-separated form. */
  function CommaForm(text: string, defaultNamespace: string): Option<seq<Element>> {
    ParseAll(Split(text, ','), defaultNamespace)
  }

  function WithNamespace(e: Element, defaultNamespace: string): Element {
    if e.namespace == "" then e.(namespace := defaultNamespace) else e
  }

  /** Missing namespaces get the default; without a default the whole selection is ignored. */
  function Filled(elements: seq<Element>, defaultNamespace: string): seq<Element> {
    if defaultNamespace == "" && exists i :: 0 <= i < |elements| && elements[i].namespace == "" then []
    else seq(|elements|, i requires 0 <= i < |elements| => WithNamespace(elements[i], defaultNamespace))
  }

  /** What an annotation selects; None is the error of parsePodNetworkSelections. */
  function SelectionsOf(text: string, defaultNamespace: string, decode: Decoder): Option<seq<Element>> {
    if text == "" then None
    else match decode(text)
      case Some(elements) => Some(Filled(elements, defaultNamespace))
      case None =>
        (match CommaForm(text, defaultNamespace)
         case Some(elements) => Some(Filled(elements, defaultNamespace))
         case None => None)
  }

  /** The loop over a list that fills namespaces in place; false means the request is to be ignored. */
  method FillNamespaces(selections: array<Element>, defaultNamespace: string) returns (keep: bool)
    modifies selections
    ensures keep <==> !(defaultNamespace == "" && exists i :: 0 <= i < selections.Length && old(selections[i]).namespace == "")
    ensures keep ==> selections[..] == Filled(old(selections[..]), defaultNamespace)
  {
    var i := 0;
    while i < selections.Length
      invariant 0 <= i <= selections.Length
      invariant forall k :: 0 <= k < i ==> selections[k] == WithNamespace(old(selections[k]), defaultNamespace)
      invariant forall k :: i <= k < selections.Length ==> selections[k] == old(selections[k])
      invariant defaultNamespace == "" ==> forall k :: 0 <= k < i ==> old(selections[k]).namespace != ""
    {
      if selections[i].namespace == "" {
        if defaultNamespace == "" {
          return false;
        } else {
          selections[i] := selections[i].(namespace := defaultNamespace);
        }
      }
      i := i + 1;
    }
    keep := true;
    ghost var was := old(selections[..]);
    assert forall k :: 0 <= k < |was| ==> was[k] == old(selections[k]);
  }

  /** The comma-separated form, element by element. */
  method ParseCommaForm(podNetworks: string, defaultNamespace: string) returns (result: Option<seq<Element>>)
    ensures result == CommaForm(podNetworks, defaultNamespace)
  {
    var parts := Split(podNetworks, ',');
    var networkSelections := [];
    var i := 0;
    while i < |parts|
      invariant 0 <= i <= |parts|
      invariant ParseAll(parts[..i], defaultNamespace) == Some(networkSelections)
    {
      assert parts[..i + 1][..i] == parts[..i];
      var element := ParseElement(TrimSpace(parts[i]), defaultNamespace);
      if element.None? {
        ParseAllFails(parts, defaultNamespace, i + 1);
        return None;
      }
      networkSelections := networkSelections + [element.value];
      i := i + 1;
    }
    assert parts[..i] == parts;
    return Some(networkSelections);
  }

  method ParsePodNetworkSelections(podNetworks: string, defaultNamespace: string, decode: Decoder)
    returns (result: Option<seq<Element>>)
    ensures result == SelectionsOf(podNetworks, defaultNamespace, decode)
  {
    if |podNetworks| == 0 {
      return None;
    }
    var networkSelections := decode(podNetworks);
    if networkSelections.None? {
      networkSelections := ParseCommaForm(podNetworks, defaultNamespace);
      if networkSelections.None? {
        return None;
      }
    }
    var selections := new Element[|networkSelections.value|](i requires 0 <= i < |networkSelections.value| => networkSelections.value[i]);
    assert selections[..] == networkSelections.value;
    var keep := FillNamespaces(selections, defaultNamespace);
    return if keep then Some(selections[..]) else Some([]);
  }

  /** The list as it is written, from the JSON form or else the comma-separated one. */
  function RawList(text: string, defaultNamespace: string, decode: Decoder): Option<seq<Element>> {
    if decode(text).Some? then decode(text) else CommaForm(text, defaultNamespace)
  }

  /**
   The selection succeeds exactly if the text is not empty and one of its forms does. It is empty
   exactly if the list is, or if a network without a namespace finds no default; otherwise it is
   the list, element by element, with missing namespaces filled and explicit ones kept.
   */
  lemma SelectedNamespaces(text: string, defaultNamespace: string, decode: Decoder)
    ensures var raw, selected := RawList(text, defaultNamespace, decode), SelectionsOf(text, defaultNamespace, decode);
            && (selected.Some? <==> text != "" && raw.Some?)
            && (selected.Some? ==>
                  && (selected.value == [] <==>
                      raw.value == [] || (defaultNamespace == "" && exists i :: 0 <= i < |raw.value| && raw.value[i].namespace == ""))
                  && (selected.value != [] ==> |selected.value| == |raw.value|)
                  && forall i :: 0 <= i < |selected.value| ==>
                       && selected.value[i].namespace != ""
                       && selected.value[i].name == raw.value[i].name
                       && selected.value[i].interface_ == raw.value[i].interface_
                       && selected.value[i].namespace ==
                          if raw.value[i].namespace != "" then raw.value[i].namespace else defaultNamespace)
  {
  }

  ghost predicate EveryPartInGrammar(parts: seq<string>, defaultNamespace: string) {
    forall k :: 0 <= k < |parts| ==> InGrammar(TrimSpace(parts[k]), defaultNamespace)
  }

  lemma {:induction false} ParseAllExact(parts: seq<string>, defaultNamespace: string)
    ensures ParseAll(parts, defaultNamespace).Some? <==> EveryPartInGrammar(parts, defaultNamespace)
    decreases |parts|
  {
    if parts != [] {
      var n := |parts| - 1;
      ParseAllExact(parts[..n], defaultNamespace);
      GrammarDecides(TrimSpace(parts[n]), defaultNamespace);
      LastPartInGrammar(parts, defaultNamespace);
    }
  }

  lemma LastPartInGrammar(parts: seq<string>, defaultNamespace: string)
    requires parts != []
    ensures var n := |parts| - 1;
            EveryPartInGrammar(parts, defaultNamespace) <==>
            EveryPartInGrammar(parts[..n], defaultNamespace) && InGrammar(TrimSpace(parts[n]), defaultNamespace)
  {
    var n := |parts| - 1;
    assert forall k :: 0 <= k < n ==> parts[..n][k] == parts[k];
  }

  /** The comma form is accepted exactly when every trimmed part is in the grammar. */
  lemma CommaFormExact(text: string, defaultNamespace: string, decode: Decoder)
    requires text != "" && decode(text).None?
    ensures SelectionsOf(text, defaultNamespace, decode).Some? <==> EveryPartInGrammar(Split(text, ','), defaultNamespace)
  {
    ParseAllExact(Split(text, ','), defaultNamespace);
  }

  // ---------- printing and parsing back ----------

  predicate Printable(e: Element) {
    IsLabel(e.namespace) && IsLabel(e.name) && IsUnit(e.interface_)
  }

  function Print(e: Element): string {
    e.namespace + "/" + NameText(e, e.interface_ != "")
  }

  function PrintPadded(elements: seq<Element>, before: seq<string>, after: seq<string>): seq<string>
    requires |before| == |after| == |elements|
  {
    seq(|elements|, i requires 0 <= i < |elements| => before[i] + Print(elements[i]) + after[i])
  }

  lemma PrintedIsTight(e: Element)
    requires Printable(e)
    ensures Tight(Print(e)) && ',' !in Print(e)
  {
    UnitIsPlain(e.namespace);
    UnitIsPlain(e.name);
    UnitIsPlain(e.interface_);
    var text := Print(e);
    assert text[0] == e.namespace[0];
    assert text[|text| - 1] == if e.interface_ == "" then e.name[|e.name| - 1] else e.interface_[|e.interface_| - 1];
  }

  /**
   Printing networks as a comma-separated list, with any white space around them, and parsing
   on the comma branch gives the same networks, whatever the default namespace.
   */
  lemma PrintParseRoundTrip(elements: seq<Element>, before: seq<string>, after: seq<string>,
                            defaultNamespace: string, decode: Decoder)
    requires elements != [] && |before| == |after| == |elements|
    requires forall i :: 0 <= i < |elements| ==> Printable(elements[i]) && Blank(before[i]) && Blank(after[i])
    requires decode(Join(PrintPadded(elements, before, after), ',')).None?
    ensures SelectionsOf(Join(PrintPadded(elements, before, after), ','), defaultNamespace, decode) == Some(elements)
  {
    var parts := PrintPadded(elements, before, after);
    PrintedPartsParse(elements, before, after, defaultNamespace);
    PrintedTextSplits(elements, before, after);
    NothingToFill(elements, defaultNamespace);
  }

  lemma {:induction false} PrintedPartsParse(elements: seq<Element>, before: seq<string>, after: seq<string>, defaultNamespace: string)
    requires |before| == |after| == |elements|
    requires forall i :: 0 <= i < |elements| ==> Printable(elements[i]) && Blank(before[i]) && Blank(after[i])
    ensures ParseAll(PrintPadded(elements, before, after), defaultNamespace) == Some(elements)
    decreases |elements|
  {
    if elements != [] {
      var n := |elements| - 1;
      PrintedPartsParse(elements[..n], before[..n], after[..n], defaultNamespace);
      PrintedSnoc(elements, before, after);
      PrintedSnocParses(PrintPadded(elements[..n], before[..n], after[..n]), elements[..n], elements[n], before[n], after[n],
                        defaultNamespace);
    }
  }

  lemma PrintedSnoc(elements: seq<Element>, before: seq<string>, after: seq<string>)
    requires elements != [] && |before| == |after| == |elements|
    ensures var n := |elements| - 1;
            && PrintPadded(elements, before, after) ==
               PrintPadded(elements[..n], before[..n], after[..n]) + [before[n] + Print(elements[n]) + after[n]]
            && elements[..n] + [elements[n]] == elements
  {
  }

  lemma PrintedSnocParses(parts: seq<string>, elements: seq<Element>, e: Element, before: string, after: string,
                          defaultNamespace: string)
    requires ParseAll(parts, defaultNamespace) == Some(elements)
    requires Printable(e) && Blank(before) && Blank(after)
    ensures ParseAll(parts + [before + Print(e) + after], defaultNamespace) == Some(elements + [e])
  {
    PaddedParses(e, before, after, defaultNamespace);
    ParseAllSnoc(parts, before + Print(e) + after, defaultNamespace, elements, e);
  }

  lemma PrintedTextSplits(elements: seq<Element>, before: seq<string>, after: seq<string>)
    requires elements != [] && |before| == |after| == |elements|
    requires forall i :: 0 <= i < |elements| ==> Printable(elements[i]) && Blank(before[i]) && Blank(after[i])
    ensures var parts := PrintPadded(elements, before, after);
            Split(Join(parts, ','), ',') == parts && Join(parts, ',') != ""
  {
    var parts := PrintPadded(elements, before, after);
    forall i | 0 <= i < |parts| ensures ',' !in parts[i] && parts[i] != "" {
      PaddedPlain(elements[i], before[i], after[i]);
    }
    SplitJoin(parts, ',');
    if |parts| > 1 { assert Join(parts, ',') == parts[0] + [','] + Join(parts[1..], ','); }
  }

  lemma NothingToFill(elements: seq<Element>, defaultNamespace: string)
    requires forall i :: 0 <= i < |elements| ==> Printable(elements[i])
    ensures Filled(elements, defaultNamespace) == elements
  {
  }

  lemma BlankIsPlain(s: string)
    requires Blank(s)
    ensures ',' !in s
  {
    forall i | 0 <= i < |s| ensures s[i] != ',' { assert IsSpace(s[i]); }
  }

  lemma PaddedPlain(e: Element, before: string, after: string)
    requires Printable(e) && Blank(before) && Blank(after)
    ensures ',' !in before + Print(e) + after && before + Print(e) + after != ""
  {
    PrintedIsTight(e);
    BlankIsPlain(before);
    BlankIsPlain(after);
    assert |Print(e)| > 0;
  }

  lemma ParseAllSnoc(parts: seq<string>, part: string, defaultNamespace: string, elements: seq<Element>, e: Element)
    requires ParseAll(parts, defaultNamespace) == Some(elements) && ParseElement(TrimSpace(part), defaultNamespace) == Some(e)
    ensures ParseAll(parts + [part], defaultNamespace) == Some(elements + [e])
  {
    assert (parts + [part])[..|parts|] == parts;
  }

  lemma PaddedParses(e: Element, before: string, after: string, defaultNamespace: string)
    requires Printable(e) && Blank(before) && Blank(after)
    ensures ParseElement(TrimSpace(before + Print(e) + after), defaultNamespace) == Some(e)
  {
    PrintedIsTight(e);
    TrimPadded(before, Print(e), after);
    DenotedParses(Print(e), defaultNamespace, e, true, e.interface_ != "");
  }
}
