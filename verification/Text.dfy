/** The functions of Go's strings package that the modelled code uses. */
module Text {
  import opened Objects

  predicate Free(s: string, c: char) {
    forall i :: 0 <= i < |s| ==> s[i] != c
  }

  /** strings.Split with a one-character separator. */
  function Split(s: string, sep: char): (r: seq<string>)
    ensures |r| >= 1
    ensures forall i :: 0 <= i < |r| ==> Free(r[i], sep)
    ensures Join(r, sep) == s
  {
    if s == "" then [""]
    else
      var rest := Split(s[1..], sep);
      if s[0] == sep then [""] + rest
      else
        var r := [[s[0]] + rest[0]] + rest[1..];
        assert r[1..] == rest[1..];
        r
  }

  /** strings.Join with a one-character separator. */
  function Join(parts: seq<string>, sep: char): string {
    if parts == [] then ""
    else if |parts| == 1 then parts[0]
    else parts[0] + [sep] + Join(parts[1..], sep)
  }

  /** Splitting undoes joining. */
  lemma {:induction false} SplitJoin(parts: seq<string>, sep: char)
    requires |parts| >= 1 && forall i :: 0 <= i < |parts| ==> Free(parts[i], sep)
    ensures Split(Join(parts, sep), sep) == parts
    decreases |parts|
  {
    if |parts| == 1 {
      SplitFree(parts[0], sep);
    } else {
      SplitJoin(parts[1..], sep);
      SplitAt(parts[0], Join(parts[1..], sep), sep);
    }
  }

  lemma {:induction false} SplitFree(s: string, sep: char)
    requires Free(s, sep)
    ensures Split(s, sep) == [s]
  {
    if s != "" { SplitFree(s[1..], sep); }
  }

  lemma {:induction false} SplitAt(a: string, b: string, sep: char)
    requires Free(a, sep)
    ensures Split(a + [sep] + b, sep) == [a] + Split(b, sep)
  {
    var s := a + [sep] + b;
    if a == "" {
      assert s[1..] == b;
    } else {
      assert s[1..] == a[1..] + [sep] + b;
      SplitAt(a[1..], b, sep);
      assert s[0] == a[0] && [a[0]] + a[1..] == a;
    }
  }

  /** strings.SplitN(s, sep, 2), if it has two parts. */
  function Cut(s: string, sep: char): (r: Option<(string, string)>)
    ensures r.None? ==> Free(s, sep)
    ensures r.Some? ==> Free(r.value.0, sep) && s == r.value.0 + [sep] + r.value.1
  {
    if s == "" then None
    else if s[0] == sep then Some(("", s[1..]))
    else match Cut(s[1..], sep)
      case None => None
      case Some(p) => Some(([s[0]] + p.0, p.1))
  }

  lemma {:induction false} CutAt(a: string, b: string, sep: char)
    requires Free(a, sep)
    ensures Cut(a + [sep] + b, sep) == Some((a, b))
  {
    var s := a + [sep] + b;
    if a == "" {
      assert s[1..] == b;
    } else {
      assert s[1..] == a[1..] + [sep] + b;
      CutAt(a[1..], b, sep);
      assert s[0] == a[0] && [a[0]] + a[1..] == a;
    }
  }

  /** unicode.IsSpace. */
  predicate IsSpace(c: char) {
    c in {'\t', '\n', '\U{0B}', '\U{0C}', '\r', ' ', '\U{85}', '\U{A0}', '\U{1680}', '\U{2028}', '\U{2029}', '\U{202F}', '\U{205F}', '\U{3000}'}
    || '\U{2000}' <= c <= '\U{200A}'
  }

  function TrimLeft(s: string): string {
    if s != "" && IsSpace(s[0]) then TrimLeft(s[1..]) else s
  }

  function TrimRight(s: string): string {
    if s != "" && IsSpace(s[|s| - 1]) then TrimRight(s[..|s| - 1]) else s
  }

  /** strings.TrimSpace. */
  function TrimSpace(s: string): string {
    TrimRight(TrimLeft(s))
  }

  predicate Trimmed(s: string) {
    s != "" ==> !IsSpace(s[0]) && !IsSpace(s[|s| - 1])
  }

  /** Text is its own trimming exactly when it neither starts nor ends with a space. */
  lemma TrimmedIff(s: string)
    ensures TrimSpace(s) == s <==> Trimmed(s)
  {
    TrimLeftShrinks(s);
    if s != "" && !IsSpace(s[0]) && IsSpace(s[|s| - 1]) { TrimRightShrinks(s[..|s| - 1]); }
    if s != "" && IsSpace(s[0]) { TrimLeftShrinks(s[1..]); TrimRightShrinks(TrimLeft(s)); }
  }

  predicate Blank(s: string) {
    forall i :: 0 <= i < |s| ==> IsSpace(s[i])
  }

  lemma {:induction false} TrimLeftBlank(p: string, s: string)
    requires Blank(p) && s != "" && !IsSpace(s[0])
    ensures TrimLeft(p + s) == s
  {
    hide IsSpace;
    if p == "" {
      assert p + s == s;
    } else {
      assert (p + s)[1..] == p[1..] + s;
      TrimLeftBlank(p[1..], s);
    }
  }

  lemma {:induction false} TrimRightBlank(s: string, q: string)
    requires Blank(q) && s != "" && !IsSpace(s[|s| - 1])
    ensures TrimRight(s + q) == s
  {
    hide IsSpace;
    if q == "" {
      assert s + q == s;
    } else {
      assert (s + q)[..|s + q| - 1] == s + q[..|q| - 1];
      TrimRightBlank(s, q[..|q| - 1]);
    }
  }

  /** Trimming takes away all space around a text, and nothing else. */
  lemma TrimPadded(p: string, s: string, q: string)
    requires Blank(p) && Blank(q) && s != "" && Trimmed(s)
    ensures TrimSpace(p + s + q) == s
  {
    hide IsSpace;
    assert p + s + q == p + (s + q) && (s + q)[0] == s[0];
    TrimLeftBlank(p, s + q);
    TrimRightBlank(s, q);
  }

  lemma {:induction false} TrimLeftShrinks(s: string)
    ensures |TrimLeft(s)| <= |s|
  {
    if s != "" && IsSpace(s[0]) { TrimLeftShrinks(s[1..]); }
  }

  lemma {:induction false} TrimRightShrinks(s: string)
    ensures |TrimRight(s)| <= |s|
  {
    if s != "" && IsSpace(s[|s| - 1]) { TrimRightShrinks(s[..|s| - 1]); }
  }
}
