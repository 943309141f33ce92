/**
 JSON Pointer strings: how the webhook writes them and how RFC 6901 reads them.
 */
module Pointer {
  import opened Wrappers
  import opened Text

  /** How the webhook escapes a key: first every '~', then every '/'. */
  function ToSafeJsonPatchKey(key: string): string {
    ReplaceAll(ReplaceAll(key, '~', "~0"), '/', "~1")
  }

  /** Replaces every occurrence of the two characters c, d, scanning from the left. */
  function ReplacePair(s: string, c: char, d: char, repl: char): string {
    if |s| >= 2 && s[0] == c && s[1] == d then [repl] + ReplacePair(s[2..], c, d, repl)
    else if s == "" then ""
    else [s[0]] + ReplacePair(s[1..], c, d, repl)
  }

  /** RFC 6901 section 4: first '~1' becomes '/', then '~0' becomes '~'. */
  function Unescape(token: string): string {
    ReplacePair(ReplacePair(token, '~', '1', '/'), '~', '0', '~')
  }

  /** RFC 6901 section 3: a token has no '/', and its '~' are followed by '0' or '1'. */
  predicate WellEscaped(token: string) {
    && '/' !in token
    && forall i :: 0 <= i < |token| && token[i] == '~' ==> i + 1 < |token| && token[i + 1] in "01"
  }

  // ---------- escaping is a bijection between strings and well-formed tokens ----------

  lemma {:induction false} ReplaceAllConcat(a: string, b: string, c: char, repl: string)
    ensures ReplaceAll(a + b, c, repl) == ReplaceAll(a, c, repl) + ReplaceAll(b, c, repl)
  {
    if a == "" {
      assert a + b == b;
    } else {
      assert (a + b)[1..] == a[1..] + b;
      ReplaceAllConcat(a[1..], b, c, repl);
    }
  }

  function EscapeChar(c: char): string {
    if c == '~' then "~0" else if c == '/' then "~1" else [c]
  }

  /** The two passes amount to escaping one character at a time. */
  lemma {:induction false} EscapeHead(s: string)
    requires s != ""
    ensures ToSafeJsonPatchKey(s) == EscapeChar(s[0]) + ToSafeJsonPatchKey(s[1..])
  {
    var head := if s[0] == '~' then "~0" else [s[0]];
    ReplaceAllConcat(head, ReplaceAll(s[1..], '~', "~0"), '/', "~1");
    assert head[1..] == if s[0] == '~' then "0" else "";
    assert ReplaceAll("", '/', "~1") == "";
    assert "0"[1..] == "";
    assert ReplaceAll("0", '/', "~1") == "0";
    assert ReplaceAll(head, '/', "~1") == EscapeChar(s[0]);
  }

  lemma {:induction false} FirstPassOfEscaped(s: string)
    ensures ReplacePair(ToSafeJsonPatchKey(s), '~', '1', '/') == ReplaceAll(s, '~', "~0")
  {
    if s != "" {
      EscapeHead(s);
      FirstPassOfEscaped(s[1..]);
      var t, rest := ToSafeJsonPatchKey(s), ToSafeJsonPatchKey(s[1..]);
      if s[0] == '~' {
        assert t[1..] == "0" + rest && ("0" + rest)[1..] == rest;
      } else if s[0] == '/' {
        assert t[2..] == rest;
      } else {
        assert t[1..] == rest;
      }
    }
  }

  lemma {:induction false} SecondPassOfEscaped(s: string)
    ensures ReplacePair(ReplaceAll(s, '~', "~0"), '~', '0', '~') == s
  {
    if s != "" {
      SecondPassOfEscaped(s[1..]);
      var t, rest := ReplaceAll(s, '~', "~0"), ReplaceAll(s[1..], '~', "~0");
      assert if s[0] == '~' then t[2..] == rest else t[1..] == rest;
    }
  }

  /** Reading an escaped key gives the key back, for every string. */
  lemma {:induction false} UnescapeEscape(key: string)
    ensures Unescape(ToSafeJsonPatchKey(key)) == key
  {
    FirstPassOfEscaped(key);
    SecondPassOfEscaped(key);
  }

  /** Distinct keys have distinct escapes. */
  lemma {:induction false} EscapeInjective(a: string, b: string)
    requires ToSafeJsonPatchKey(a) == ToSafeJsonPatchKey(b)
    ensures a == b
  {
    UnescapeEscape(a);
    UnescapeEscape(b);
  }

  /** An escaped key is a well-formed reference token. */
  lemma {:induction false} EscapeWellFormed(key: string)
    ensures WellEscaped(ToSafeJsonPatchKey(key))
  {
    if key != "" {
      EscapeHead(key);
      EscapeWellFormed(key[1..]);
      var h, rest := EscapeChar(key[0]), ToSafeJsonPatchKey(key[1..]);
      forall i | 0 <= i < |h + rest| && (h + rest)[i] == '~'
        ensures i + 1 < |h + rest| && (h + rest)[i + 1] in "01"
      {
        if i >= |h| { assert rest[i - |h|] == '~'; }
      }
    }
  }

  lemma {:induction false} UnescapeHead(token: string)
    requires WellEscaped(token) && token != ""
    ensures token[0] == '~' ==>
              WellEscaped(token[2..]) &&
              Unescape(token) == [if token[1] == '1' then '/' else '~'] + Unescape(token[2..])
    ensures token[0] != '~' ==> WellEscaped(token[1..]) && Unescape(token) == [token[0]] + Unescape(token[1..])
  {
    var pass := t => ReplacePair(t, '~', '1', '/');
    if token[0] != '~' {
      assert forall i :: 0 <= i < |token[1..]| ==> token[1..][i] == token[i + 1];
      var rest := pass(token[1..]);
      assert pass(token) == [token[0]] + rest;
      assert ([token[0]] + rest)[1..] == rest;
    } else {
      assert forall i :: 0 <= i < |token[2..]| ==> token[2..][i] == token[i + 2];
      var rest := pass(token[2..]);
      if token[1] == '1' {
        assert pass(token) == ['/'] + rest;
        assert (['/'] + rest)[1..] == rest;
      } else {
        assert token[1..][1..] == token[2..];
        assert pass(token[1..]) == "0" + rest;
        assert pass(token) == "~" + ("0" + rest);
        assert ("~" + ("0" + rest))[2..] == rest;
      }
    }
  }

  /** Conversely every well-formed token is the escape of the string it stands for. */
  lemma {:induction false} EscapeUnescape(token: string)
    requires WellEscaped(token)
    ensures ToSafeJsonPatchKey(Unescape(token)) == token
  {
    if token != "" {
      UnescapeHead(token);
      EscapeHead(Unescape(token));
      assert token[0] in token;
      if token[0] == '~' {
        EscapeUnescape(token[2..]);
        assert Unescape(token)[1..] == Unescape(token[2..]);
        assert token == token[..2] + token[2..];
        assert token[1] in "01";
      } else {
        EscapeUnescape(token[1..]);
        assert Unescape(token)[1..] == Unescape(token[1..]);
      }
    }
  }

  // ---------- whole pointers ----------

  /** RFC 6901 sections 3 and 4: the reference tokens of a pointer, or None for a malformed one. */
  function ParsePointer(path: string): Option<seq<string>> {
    if path == "" then Some([])
    else if path[0] != '/' then None
    else
      var parts := Split(path[1..], '/');
      if forall i :: 0 <= i < |parts| ==> WellEscaped(parts[i])
      then Some(Unescaped(parts))
      else None
  }

  function Unescaped(parts: seq<string>): seq<string> {
    seq(|parts|, i requires 0 <= i < |parts| => Unescape(parts[i]))
  }

  /** The pointer with the given reference tokens. */
  function Render(tokens: seq<string>): string {
    if tokens == [] then "" else "/" + ToSafeJsonPatchKey(tokens[0]) + Render(tokens[1..])
  }

  function Escaped(tokens: seq<string>): seq<string> {
    seq(|tokens|, i requires 0 <= i < |tokens| => ToSafeJsonPatchKey(tokens[i]))
  }

  lemma {:induction false} RenderIsJoin(tokens: seq<string>)
    requires tokens != []
    ensures Render(tokens) == "/" + Join(Escaped(tokens), '/')
  {
    assert Escaped(tokens)[1..] == Escaped(tokens[1..]);
    if |tokens| > 1 { RenderIsJoin(tokens[1..]); }
  }

  /** A rendered pointer parses to exactly the tokens it was rendered from. */
  lemma {:induction false} RenderParses(tokens: seq<string>)
    ensures ParsePointer(Render(tokens)) == Some(tokens)
  {
    if tokens != [] {
      RenderIsJoin(tokens);
      var parts := Escaped(tokens);
      forall i | 0 <= i < |parts|
        ensures WellEscaped(parts[i]) && Unescape(parts[i]) == tokens[i]
      {
        EscapeWellFormed(tokens[i]);
        UnescapeEscape(tokens[i]);
      }
      SplitJoin(parts, '/');
      assert Render(tokens)[1..] == Join(parts, '/');
      assert Unescaped(parts) == tokens;
    }
  }

  /** A key without '~' and '/' needs no escaping. */
  lemma {:induction false} EscapePlain(key: string)
    requires '~' !in key && '/' !in key
    ensures ToSafeJsonPatchKey(key) == key
  {
    if key != "" {
      EscapeHead(key);
      assert key[0] in key;
      EscapePlain(key[1..]);
    }
  }

  /** RFC 6901 section 4: an array index is "0" or digits without a leading zero. */
  function ParseIndex(token: string): Option<nat> {
    if token != "" && IsDigits(token) && (|token| == 1 || token[0] != '0')
    then Some(DecimalValue(token))
    else None
  }

  /** Distinct tokens are distinct indices. */
  lemma ParseIndexInjective(a: string, b: string)
    requires a != b
    ensures ParseIndex(a).None? || ParseIndex(a) != ParseIndex(b)
  {
    if ParseIndex(a).Some? { CanonicalDecimal(a); }
    if ParseIndex(b).Some? { CanonicalDecimal(b); }
  }

  /** A printed container index needs no escaping and is read back as that index. */
  lemma {:induction false} IndexRoundTrip(i: nat)
    ensures ParseIndex(Itoa(i)) == Some(i)
    ensures ToSafeJsonPatchKey(Itoa(i)) == Itoa(i)
    ensures Itoa(i) != "-"
  {
    ItoaRoundTrip(i);
    EscapePlain(Itoa(i));
  }
}
