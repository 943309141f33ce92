/**
 The string operations of Go's standard library that the webhook relies on, with the
 laws the rest of the project needs: splitting, trimming, replacing and decimal printing.
 */
module Text {
  // ---------- strings.Split and its inverse ----------

  function Split(s: string, sep: char): (parts: seq<string>)
    ensures |parts| > 0
  {
    if s == "" then [""]
    else
      var rest := Split(s[1..], sep);
      if s[0] == sep then [""] + rest else [[s[0]] + rest[0]] + rest[1..]
  }

  function Join(parts: seq<string>, sep: char): string
    requires |parts| > 0
  {
    if |parts| == 1 then parts[0] else parts[0] + [sep] + Join(parts[1..], sep)
  }

  /** A text without the separator is its own only part. */
  lemma {:induction false} SplitPlain(a: string, sep: char)
    requires sep !in a
    ensures Split(a, sep) == [a]
  {
    if a != "" {
      assert a[0] in a && sep !in a[1..];
      SplitPlain(a[1..], sep);
      assert [a[0]] + a[1..] == a;
    }
  }

  /** Splitting peels off the part in front of the first separator. */
  lemma {:induction false} SplitCons(a: string, b: string, sep: char)
    requires sep !in a
    ensures Split(a + [sep] + b, sep) == [a] + Split(b, sep)
  {
    var s := a + [sep] + b;
    if a == "" {
      assert s[1..] == b;
    } else {
      assert a[0] in a && sep !in a[1..];
      assert s[1..] == a[1..] + [sep] + b;
      SplitCons(a[1..], b, sep);
      assert [a[0]] + a[1..] == a;
    }
  }

  /** Split undoes Join on parts that do not contain the separator. */
  lemma {:induction false} SplitJoin(parts: seq<string>, sep: char)
    requires |parts| > 0
    requires forall i :: 0 <= i < |parts| ==> sep !in parts[i]
    ensures Split(Join(parts, sep), sep) == parts
  {
    if |parts| == 1 {
      SplitPlain(parts[0], sep);
    } else {
      SplitJoin(parts[1..], sep);
      SplitCons(parts[0], Join(parts[1..], sep), sep);
    }
  }

  /** Join undoes Split, and no part of a split contains the separator. */
  lemma {:induction false} JoinSplit(s: string, sep: char)
    ensures Join(Split(s, sep), sep) == s
    ensures forall i :: 0 <= i < |Split(s, sep)| ==> sep !in Split(s, sep)[i]
  {
    if s != "" {
      JoinSplit(s[1..], sep);
      var rest := Split(s[1..], sep);
      if s[0] == sep {
        assert ([""] + rest)[1..] == rest;
      } else {
        var parts := [[s[0]] + rest[0]] + rest[1..];
        assert parts[1..] == rest[1..];
      }
    }
  }

  // ---------- strings.TrimSpace ----------

  /** unicode.IsSpace. */
  predicate IsSpace(c: char) {
    var u := c as int;
    || 0x09 <= u <= 0x0D || u == 0x20 || u == 0x85 || u == 0xA0
    || u == 0x1680 || 0x2000 <= u <= 0x200A || u == 0x2028 || u == 0x2029
    || u == 0x202F || u == 0x205F || u == 0x3000
  }

  predicate Blank(s: string) {
    forall i {:trigger IsSpace(s[i])} :: 0 <= i < |s| ==> IsSpace(s[i])
  }

  function TrimLeft(s: string): string {
    if s != "" && IsSpace(s[0]) then TrimLeft(s[1..]) else s
  }

  function TrimRight(s: string): string {
    if s != "" && IsSpace(s[|s| - 1]) then TrimRight(s[..|s| - 1]) else s
  }

  function TrimSpace(s: string): string {
    TrimRight(TrimLeft(s))
  }

  /** A text that trimming leaves alone. */
  predicate Tight(s: string) {
    s == "" || (!IsSpace(s[0]) && !IsSpace(s[|s| - 1]))
  }

  lemma {:induction false} TrimLeftPadded(pre: string, s: string)
    requires Blank(pre)
    ensures TrimLeft(pre + s) == TrimLeft(s)
  {
    if pre == "" {
      assert pre + s == s;
    } else {
      assert (pre + s)[1..] == pre[1..] + s;
      TrimLeftPadded(pre[1..], s);
    }
  }

  lemma {:induction false} TrimRightPadded(s: string, post: string)
    requires Blank(post)
    ensures TrimRight(s + post) == TrimRight(s)
  {
    if post == "" {
      assert s + post == s;
    } else {
      var short := post[..|post| - 1];
      assert (s + post)[..|s + post| - 1] == s + short;
      TrimRightPadded(s, short);
    }
  }

  /** Trimming removes exactly the surrounding white space. */
  lemma {:induction false} TrimPadded(pre: string, s: string, post: string)
    requires Blank(pre) && Blank(post) && Tight(s)
    ensures TrimSpace(pre + s + post) == s
  {
    assert pre + s + post == pre + (s + post);
    TrimLeftPadded(pre, s + post);
    if s == "" {
      assert s + post == post + "";
      TrimLeftPadded(post, "");
    } else {
      assert TrimLeft(s + post) == s + post;
      TrimRightPadded(s, post);
    }
  }

  /** What trimming leaves, with the white space it takes off. */
  lemma TrimExactly(s: string) returns (pre: string, post: string)
    ensures Blank(pre) && Blank(post) && s == pre + TrimSpace(s) + post && Tight(TrimSpace(s))
  {
    pre := TrimLeftCuts(s);
    post := TrimRightCuts(TrimLeft(s));
    assert s == pre + (TrimSpace(s) + post) == pre + TrimSpace(s) + post;
  }

  lemma {:induction false} TrimLeftCuts(s: string) returns (pre: string)
    ensures Blank(pre) && s == pre + TrimLeft(s) && (TrimLeft(s) == "" || !IsSpace(TrimLeft(s)[0]))
  {
    if s != "" && IsSpace(s[0]) {
      var rest := TrimLeftCuts(s[1..]);
      pre := [s[0]] + rest;
      assert s == [s[0]] + s[1..];
    } else {
      pre := "";
    }
  }

  lemma {:induction false} TrimRightCuts(s: string) returns (post: string)
    requires s == "" || !IsSpace(s[0])
    ensures Blank(post) && s == TrimRight(s) + post && Tight(TrimRight(s))
  {
    if s != "" && IsSpace(s[|s| - 1]) {
      var rest := TrimRightCuts(s[..|s| - 1]);
      post := rest + [s[|s| - 1]];
      assert s == s[..|s| - 1] + [s[|s| - 1]];
    } else {
      post := "";
    }
  }

  /** A text with white space around a core that has none at its ends. */
  ghost predicate Padded(text: string, core: string) {
    Tight(core) && exists pre, post :: Blank(pre) && Blank(post) && text == pre + core + post
  }

  /** The trimmed text is the one core. */
  lemma PaddedExactly(text: string, core: string)
    ensures Padded(text, core) <==> core == TrimSpace(text)
  {
    if Padded(text, core) {
      var pre, post :| Blank(pre) && Blank(post) && text == pre + core + post;
      TrimPadded(pre, core, post);
    }
    var pre, post := TrimExactly(text);
  }

  /** The white space of ASCII. */
  lemma AsciiSpaces(c: char)
    requires c as int < 128
    ensures IsSpace(c) <==> c in " \t\n\r\U{B}\U{C}"
  {
  }

  predicate OccursTwice(s: string, c: char) {
    exists i, j :: 0 <= i < j < |s| && s[i] == c && s[j] == c
  }

  lemma OffSeparator(left: string, right: string, sep: char, i: nat)
    requires sep !in left && sep !in right && i < |left| + 1 + |right| && i != |left|
    ensures (left + [sep] + right)[i] != sep
  {
    if i < |left| {
      assert left[i] in left;
    } else {
      assert right[i - |left| - 1] in right;
    }
  }

  /** A text splits in two at its only separator, and in more at several. */
  lemma SplitParts(s: string, sep: char)
    ensures |Split(s, sep)| == 1 <==> sep !in s
    ensures |Split(s, sep)| > 2 <==> OccursTwice(s, sep)
  {
    var parts := Split(s, sep);
    JoinSplit(s, sep);
    if |parts| == 1 {
      assert s == parts[0];
    } else if |parts| == 2 {
      assert parts[1..] == [parts[1]];
      assert s == parts[0] + [sep] + parts[1];
      forall i | 0 <= i < |s| && i != |parts[0]| ensures s[i] != sep {
        OffSeparator(parts[0], parts[1], sep, i);
      }
      assert s[|parts[0]|] == sep;
    } else {
      var rest := Join(parts[2..], sep);
      assert parts[1..][1..] == parts[2..] && parts[1..][0] == parts[1];
      assert s == parts[0] + [sep] + (parts[1] + [sep] + rest);
      assert s[|parts[0]|] == sep && s[|parts[0]| + 1 + |parts[1]|] == sep;
    }
  }

  // ---------- strings.ReplaceAll with a one-character pattern ----------

  function ReplaceAll(s: string, c: char, repl: string): string {
    if s == "" then "" else (if s[0] == c then repl else [s[0]]) + ReplaceAll(s[1..], c, repl)
  }

  // ---------- strconv.Itoa on non-negative numbers, and reading it back ----------

  const DIGITS := "0123456789"

  function Itoa(n: nat): (s: string)
    ensures |s| > 0
  {
    if n < 10 then [DIGITS[n]] else Itoa(n / 10) + [DIGITS[n % 10]]
  }

  predicate IsDigits(s: string) {
    forall i :: 0 <= i < |s| ==> '0' <= s[i] <= '9'
  }

  function DecimalValue(s: string): nat
    requires IsDigits(s)
  {
    if s == "" then 0
    else DecimalValue(s[..|s| - 1]) * 10 + (s[|s| - 1] as int - '0' as int)
  }

  /** Printing then reading a number gives it back; the text is canonical (no leading zero). */
  lemma {:induction false} ItoaRoundTrip(n: nat)
    ensures IsDigits(Itoa(n)) && DecimalValue(Itoa(n)) == n
    ensures Itoa(n)[0] == '0' ==> n == 0
    ensures n == 0 ==> Itoa(n) == "0"
  {
    if n < 10 {
      assert Itoa(n) == [DIGITS[n]] && Itoa(n)[..0] == "";
      assert DecimalValue("") == 0;
    } else {
      ItoaRoundTrip(n / 10);
      var s := Itoa(n);
      assert s[..|s| - 1] == Itoa(n / 10);
    }
  }

  /** Digits without a leading zero are what printing their value gives. */
  lemma {:induction false} CanonicalDecimal(s: string)
    requires s != "" && IsDigits(s) && (|s| == 1 || s[0] != '0')
    ensures Itoa(DecimalValue(s)) == s && (s[0] != '0' ==> DecimalValue(s) > 0)
    decreases |s|
  {
    var n, digit := |s| - 1, s[|s| - 1] as int - '0' as int;
    assert s == s[..n] + [s[n]] && DIGITS[digit] == s[n];
    if n == 0 {
      assert DecimalValue(s[..0]) == 0;
    } else {
      CanonicalDecimal(s[..n]);
      assert DecimalValue(s) / 10 == DecimalValue(s[..n]) && DecimalValue(s) % 10 == digit;
    }
  }
}
