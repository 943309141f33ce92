/**
 JSON documents and the JSON Patch language the webhook answers in: the `add` operation of
 RFC 6902 section 4.1, applied in order and failing as a whole (section 5).
 */
module JsonPatch {
  import opened Wrappers
  import opened Text
  import opened Pointer

  // A quantity is a number: the value its text denotes, not the text.
  datatype Json =
    | Null
    | Bool(b: bool)
    | Num(n: real)
    | Str(s: string)
    | Arr(elems: seq<Json>)
    | Obj(fields: map<string, Json>)

  /** One operation as it is sent: the path is a string. */
  datatype Op = Op(op: string, path: string, value: Json)

  /** One `add` with its path already split into reference tokens. */
  datatype Edit = Edit(path: seq<string>, value: Json)

  // ---------- the evaluator ----------

  /** RFC 6902 section 4.1 on reference tokens; None when the target location is not there. */
  function AddAt(doc: Json, path: seq<string>, value: Json): Option<Json>
    decreases |path|
  {
    if path == [] then Some(value)
    else match doc
      case Obj(fields) =>
        if |path| == 1 then Some(Obj(fields[path[0] := value]))
        else if path[0] !in fields then None
        else (match AddAt(fields[path[0]], path[1..], value)
              case Some(child) => Some(Obj(fields[path[0] := child]))
              case None => None)
      case Arr(elems) =>
        if |path| == 1 && path[0] == "-" then Some(Arr(elems + [value]))
        else (match ParseIndex(path[0])
              case None => None
              case Some(i) =>
                if |path| == 1 then
                  if i <= |elems| then Some(Arr(elems[..i] + [value] + elems[i..])) else None
                else if i >= |elems| then None
                else (match AddAt(elems[i], path[1..], value)
                      case Some(child) => Some(Arr(elems[i := child]))
                      case None => None))
      case _ => None
  }

  /** One operation; only `add` is ever emitted, any other name is an error here. */
  function ApplyOp(doc: Json, op: Op): Option<Json> {
    if op.op != "add" then None
    else match ParsePointer(op.path)
      case Some(tokens) => AddAt(doc, tokens, op.value)
      case None => None
  }

  /** A whole patch, in order; one failing operation fails it all. */
  function Apply(doc: Json, patch: seq<Op>): Option<Json>
    decreases |patch|
  {
    if patch == [] then Some(doc)
    else match ApplyOp(doc, patch[0])
      case Some(next) => Apply(next, patch[1..])
      case None => None
  }

  // ---------- reading documents ----------

  /** The value a path leads to, if there is one. */
  function Get(doc: Json, path: seq<string>): Option<Json>
    decreases |path|
  {
    if path == [] then Some(doc)
    else match doc
      case Obj(fields) => if path[0] in fields then Get(fields[path[0]], path[1..]) else None
      case Arr(elems) =>
        (match ParseIndex(path[0])
         case Some(i) => if i < |elems| then Get(elems[i], path[1..]) else None
         case None => None)
      case _ => None
  }

  predicate CanAdd(parent: Json, token: string) {
    || parent.Obj?
    || (parent.Arr? && (token == "-" || (ParseIndex(token).Some? && ParseIndex(token).value <= |parent.elems|)))
  }

  /** The parent with a member set, an item appended, or an item inserted before others. */
  function Added(parent: Json, token: string, value: Json): Json
    requires CanAdd(parent, token)
  {
    match parent
    case Obj(fields) => Obj(fields[token := value])
    case Arr(elems) =>
      if token == "-" then Arr(elems + [value])
      else
        var i := ParseIndex(token).value;
        Arr(elems[..i] + [value] + elems[i..])
  }

  /**
   What an `add` means: it succeeds exactly when the parent is an object, or an array with room
   at the index; afterwards the parent is the one with the value added.
   */
  lemma {:induction false} AddMeaning(doc: Json, path: seq<string>, value: Json)
    requires path != []
    ensures var parent, last := Get(doc, path[..|path| - 1]), path[|path| - 1];
            && (AddAt(doc, path, value).Some? <==> parent.Some? && CanAdd(parent.value, last))
            && (AddAt(doc, path, value).Some? ==>
                  Get(AddAt(doc, path, value).value, path[..|path| - 1]) == Some(Added(parent.value, last, value)))
    decreases |path|
  {
    if |path| == 1 {
      assert path[..0] == [];
    } else {
      var tail := path[1..];
      assert path[..|path| - 1][1..] == tail[..|tail| - 1];
      assert path[..|path| - 1][0] == path[0];
      match doc
      case Obj(fields) =>
        if path[0] in fields { AddMeaning(fields[path[0]], tail, value); }
      case Arr(elems) =>
        if ParseIndex(path[0]).Some? && ParseIndex(path[0]).value < |elems| {
          AddMeaning(elems[ParseIndex(path[0]).value], tail, value);
        }
      case _ =>
    }
  }

  /**
   What an `add` leaves alone: every location whose path parts with its own above the last token,
   or at the last token when that names a member of an object.
   */
  lemma {:induction false} AddElsewhere(doc: Json, path: seq<string>, value: Json, other: seq<string>, k: nat)
    requires k < |path| && k < |other| && path[..k] == other[..k] && path[k] != other[k]
    requires AddAt(doc, path, value).Some?
    requires k == |path| - 1 ==> Get(doc, path[..k]).Some? && Get(doc, path[..k]).value.Obj?
    ensures Get(AddAt(doc, path, value).value, other) == Get(doc, other)
    decreases |path|
  {
    if k == 0 {
      assert path[..0] == [];
      ParseIndexInjective(path[0], other[0]);
    } else {
      assert path[0] == path[..k][0] == other[..k][0] == other[0];
      assert path[1..][..k - 1] == path[..k][1..] == other[..k][1..] == other[1..][..k - 1];
      match doc
      case Obj(fields) => AddElsewhere(fields[path[0]], path[1..], value, other[1..], k - 1);
      case Arr(elems) =>
        var i := ParseIndex(path[0]).value;
        assert k == |path| - 1 ==> Get(doc, path[..k]) == Get(elems[i], path[..k][1..]);
        AddElsewhere(elems[i], path[1..], value, other[1..], k - 1);
    }
  }

  // ---------- edits: the same patches with their paths as token lists ----------

  function Encode(e: Edit): Op {
    Op("add", Render(e.path), e.value)
  }

  function EncodeAll(edits: seq<Edit>): seq<Op> {
    seq(|edits|, i requires 0 <= i < |edits| => Encode(edits[i]))
  }

  function Run(doc: Json, edits: seq<Edit>): Option<Json>
    decreases |edits|
  {
    if edits == [] then Some(doc)
    else match AddAt(doc, edits[0].path, edits[0].value)
      case Some(next) => Run(next, edits[1..])
      case None => None
  }

  /** Printing the paths of edits and reading them back changes nothing. */
  lemma {:induction false} ApplyEncoded(doc: Json, edits: seq<Edit>)
    ensures Apply(doc, EncodeAll(edits)) == Run(doc, edits)
    decreases |edits|
  {
    if edits != [] {
      var patch := EncodeAll(edits);
      assert patch[1..] == EncodeAll(edits[1..]);
      RenderParses(edits[0].path);
      var next := AddAt(doc, edits[0].path, edits[0].value);
      if next.Some? { ApplyEncoded(next.value, edits[1..]); }
    }
  }

  lemma {:induction false} RunConcat(doc: Json, a: seq<Edit>, b: seq<Edit>)
    ensures Run(doc, a + b) == if Run(doc, a).Some? then Run(Run(doc, a).value, b) else None
    decreases |a|
  {
    if a == [] {
      assert a + b == b;
    } else {
      assert (a + b)[1..] == a[1..] + b;
      var next := AddAt(doc, a[0].path, a[0].value);
      if next.Some? { RunConcat(next.value, a[1..], b); }
    }
  }

  /** The same edits one level deeper. */
  function Under(key: string, edits: seq<Edit>): seq<Edit> {
    seq(|edits|, i requires 0 <= i < |edits| => Edit([key] + edits[i].path, edits[i].value))
  }

  /** Edits below a member act on that member alone. */
  lemma {:induction false} RunUnderMember(fields: map<string, Json>, key: string, edits: seq<Edit>)
    requires key in fields
    ensures Run(Obj(fields), Under(key, edits)) ==
            match Run(fields[key], edits)
            case Some(child) => Some(Obj(fields[key := child]))
            case None => None
    decreases |edits|
  {
    if edits == [] {
      assert fields[key := fields[key]] == fields;
    } else {
      var e := edits[0];
      assert Under(key, edits)[1..] == Under(key, edits[1..]);
      assert ([key] + e.path)[1..] == e.path;
      var next := AddAt(fields[key], e.path, e.value);
      if next.Some? {
        RunUnderMember(fields[key := next.value], key, edits[1..]);
        var last := Run(next.value, edits[1..]);
        if last.Some? {
          assert fields[key := next.value][key := last.value] == fields[key := last.value];
        }
      }
    }
  }

  /** Edits below an array element act on that element alone. */
  lemma {:induction false} RunUnderElement(elems: seq<Json>, i: nat, edits: seq<Edit>)
    requires i < |elems|
    requires forall e :: e in edits ==> e.path != []
    ensures Run(Arr(elems), Under(Itoa(i), edits)) ==
            match Run(elems[i], edits)
            case Some(child) => Some(Arr(elems[i := child]))
            case None => None
    decreases |edits|
  {
    if edits == [] {
      assert elems[i := elems[i]] == elems;
    } else {
      var e := edits[0];
      assert e in edits;
      assert Under(Itoa(i), edits)[1..] == Under(Itoa(i), edits[1..]);
      assert ([Itoa(i)] + e.path)[1..] == e.path;
      IndexRoundTrip(i);
      var next := AddAt(elems[i], e.path, e.value);
      if next.Some? {
        RunUnderElement(elems[i := next.value], i, edits[1..]);
        var last := Run(next.value, edits[1..]);
        if last.Some? {
          assert elems[i := next.value][i := last.value] == elems[i := last.value];
        }
      }
    }
  }
}
