/** What the entries of a bootstrap script stand for: encodings, permissions and owners as they are
    written, and the file that one entry of a run leaves. */
module Entries {
  import opened Objects
  import opened Text
  import opened CloudInit

  // ---------------------------------------------------------------- permissions

  function Octal(n: nat): (s: string)
    ensures s != "" && forall i :: 0 <= i < |s| ==> '0' <= s[i] <= '7'
  {
    (if n < 8 then "" else Octal(n / 8)) + [('0' as int + n % 8) as char]
  }

  lemma {:induction false} OctalValueOf(n: nat)
    ensures OctalValue(Octal(n)) == n
  {
    var s := Octal(n);
    var front := if n < 8 then "" else Octal(n / 8);
    assert s[..|s| - 1] == front;
    if n >= 8 { OctalValueOf(n / 8); }
  }

  /** Permissions written in octal are read back, as far as they fit 32 bits. */
  lemma OctalRoundTrip(n: nat)
    ensures ParseOctal(Octal(n)) == if n < 0x1_0000_0000 then Some(n) else None
  {
    OctalValueOf(n);
    hide OctalValue;
  }

  lemma {:induction false} OctalZero(s: string)
    requires forall i :: 0 <= i < |s| ==> '0' <= s[i] <= '7'
    ensures OctalValue("0" + s) == OctalValue(s)
  {
    if s == "" {
      assert "0" + s == "0" && "0"[..0] == "";
    } else {
      assert ("0" + s)[..|s|] == "0" + s[..|s| - 1];
      OctalZero(s[..|s| - 1]);
    }
  }

  /** A leading zero makes no difference. */
  lemma LeadingZero(s: string)
    requires s != ""
    ensures ParseOctal("0" + s) == ParseOctal(s)
  {
    hide OctalValue;
    assert forall i :: 0 <= i < |s| ==> ("0" + s)[i + 1] == s[i];
    assert forall i :: 0 < i < |"0" + s| ==> ("0" + s)[i] == s[i - 1];
    if forall i :: 0 <= i < |s| ==> '0' <= s[i] <= '7' { OctalZero(s); }
  }

  /** A file that a write creates may be read by everybody and written by its owner. */
  lemma NewFileMode()
    ensures ParseOctal("644") == Some(Existing(map[], "f").mode)
  {
    assert Octal(6) == "6" && Octal(52) == Octal(6) + "4" && Octal(420) == Octal(52) + "4";
    OctalRoundTrip(420);
    assert "6" + "4" + "4" == "644";
  }

  // ---------------------------------------------------------------- owners

  /** An owner is a known user and a group, with one colon between them. */
  lemma OwnerIff(env: Env, owner: string)
    ensures OwnerOf(env, owner).Some? <==>
            exists u, g :: owner == u + ":" + g && Free(u, ':') && Free(g, ':') && env.user(u).Some?
  {
    var parts := Split(owner, ':');
    if |parts| == 2 {
      assert Join(parts, ':') == parts[0] + ":" + parts[1] by { assert parts[1..] == [parts[1]]; }
    }
    forall u, g | owner == u + ":" + g && Free(u, ':') && Free(g, ':') ensures OwnerOf(env, owner) == env.user(u) { OwnerIs(env, u, g); }
  }

  /** The file goes to that user, and to that user's own group. */
  lemma OwnerIs(env: Env, u: string, g: string)
    requires Free(u, ':') && Free(g, ':')
    ensures OwnerOf(env, u + ":" + g) == env.user(u)
  {
    SplitAt(u, g, ':');
    SplitFree(g, ':');
  }

  // ---------------------------------------------------------------- encodings

  /** The word in any mixture of cases. */
  predicate Spells(v: string, word: string) {
    |v| == |word| && forall i :: 0 <= i < |v| ==> LowerChar(v[i]) == word[i]
  }

  lemma LoweredIs(p: string, v: string, q: string, word: string)
    requires Blank(p) && Blank(q) && Spells(v, word)
    ensures Lowered(p + v + q) == p + word + q
  {
    var a, b := Lowered(p + v + q), p + word + q;
    forall i | 0 <= i < |a| ensures a[i] == b[i] {
      if i < |p| { assert (p + v + q)[i] == p[i]; }
      else if i < |p| + |v| { assert (p + v + q)[i] == v[i - |p|]; }
      else { assert (p + v + q)[i] == q[i - |p| - |v|]; }
    }
  }

  lemma SchemeOf(p: string, v: string, q: string, word: string)
    requires Blank(p) && Blank(q) && Spells(v, word) && word != "" && Trimmed(word)
    ensures TrimSpace(Lowered(p + v + q)) == word
  {
    LoweredIs(p, v, q, word);
    TrimPadded(p, word, q);
    hide Lowered, TrimSpace;
  }

  const ZIPPED := {"gz+base64", "gzip+base64", "gz+b64", "gzip+b64"}
  const BASE64 := {"base64", "b64"}

  lemma WordsAreTrimmed(word: string)
    requires word in ZIPPED + BASE64
    ensures word != "" && Trimmed(word)
  {
  }

  lemma DecodedTwice(env: Env, content: string)
    ensures Decoded(env, content, [Base64, Gzip]) ==
            if env.base64(content).None? then None else env.gunzip(env.base64(content).value)
    ensures Decoded(env, content, [Base64]) == env.base64(content) && Decoded(env, content, [Plain]) == Some(content)
  {
    assert [Base64, Gzip][1..] == [Gzip] && [Gzip][1..] == [] && [Base64][1..] == [] && [Plain][1..] == [];
  }

  /** The inverse of the two decoders. */
  ghost predicate Encodes(env: Env, base64: string -> string, gzip: string -> string) {
    (forall x :: env.base64(base64(x)) == Some(x)) && (forall x :: env.gunzip(gzip(x)) == Some(x))
  }

  /** Content that was packed as its encoding says, however the encoding is spelled, is unpacked again
      and goes through the template engine; content with any other encoding is taken as it is. */
  lemma EncodedRoundTrip(env: Env, e: Entry, base64: string -> string, gzip: string -> string, text: string, p: string, v: string, q: string, word: string)
    requires Encodes(env, base64, gzip) && Blank(p) && Blank(q) && Spells(v, word) && e.encoding == p + v + q
    ensures word in ZIPPED && e.content == base64(gzip(text)) ==> TextOf(env, e) == env.template(text)
    ensures word in BASE64 && e.content == base64(text) ==> TextOf(env, e) == env.template(text)
    ensures word != "" && Trimmed(word) && word !in ZIPPED + BASE64 && e.content == text ==> TextOf(env, e) == env.template(text)
  {
    hide Decoded, Lowered, TrimSpace, Spells, Blank, IsSpace;
    if word in ZIPPED + BASE64 { WordsAreTrimmed(word); }
    if word != "" && Trimmed(word) { SchemeOf(p, v, q, word); }
    DecodedTwice(env, e.content);
  }

  // ---------------------------------------------------------------- the file that an entry leaves

  /** What a successful entry makes of its file: a write lies over the old content from the start, an
      append goes behind it; permissions and owner change exactly if the entry names some. */
  predicate Wrote(env: Env, e: Entry, f: File, g: File) {
    && TextOf(env, e).Some?
    && var text := TextOf(env, e).value;
       && (if e.append then g.content == f.content + text
           else text <= g.content && |g.content| == (if |text| >= |f.content| then |text| else |f.content|)
                && forall i :: |text| <= i < |g.content| ==> g.content[i] == f.content[i])
       && (if e.permissions == "" then g.mode == f.mode else ParseOctal(e.permissions) == Some(g.mode))
       && (if e.owner == "" then g.owner == f.owner else g.owner.Some? && g.owner == OwnerOf(env, e.owner))
  }

  lemma EntryWrites(env: Env, e: Entry, fault: Fault, files: map<string, File>)
    requires EntryOk(env, e, fault)
    ensures var put := EntryPut(env, e, fault);
            put.Some? && put.value.path == e.path && Wrote(env, e, Existing(files, e.path), PutFile(Existing(files, e.path), put.value))
  {
    hide TextOf, ParseOctal, OwnerOf;
  }

  /** The run gets from entry `i` to entry `n`. */
  ghost predicate GetsTo(env: Env, entries: seq<Entry>, hit: Hit, i: nat, n: nat)
    requires n <= |entries|
  {
    forall m :: i <= m < n ==> EntryOk(env, entries[m], FaultAt(hit, m))
  }

  lemma GetsOn(env: Env, entries: seq<Entry>, hit: Hit, i: nat, n: nat)
    requires i < n <= |entries| && EntryOk(env, entries[i], FaultAt(hit, i))
    ensures GetsTo(env, entries, hit, i + 1, n) ==> GetsTo(env, entries, hit, i, n)
  {
    hide EntryOk;
  }

  lemma PutElsewhere(files: map<string, File>, p: Put, path: string)
    requires p.path != path
    ensures var t := DoPut(files, p); (path in t <==> path in files) && (path in t ==> t[path] == files[path])
  {
  }

  lemma EntryPath(env: Env, e: Entry, fault: Fault)
    ensures EntryPut(env, e, fault).Some? ==> EntryPut(env, e, fault).value.path == e.path
  {
    hide TextOf, ParseOctal, OwnerOf;
  }

  /** A run touches the files of the entries it gets to, and no others. */
  lemma {:induction false} OthersUntouched(env: Env, entries: seq<Entry>, hit: Hit, i: nat, files: map<string, File>, path: string)
    requires i <= |entries| && forall n :: i <= n < |entries| && entries[n].path == path ==> !GetsTo(env, entries, hit, i, n)
    ensures var t := DoPuts(files, Puts(env, entries, hit, i)); (path in t <==> path in files) && (path in t ==> t[path] == files[path])
    decreases |entries| - i
  {
    hide EntryPut, EntryOk, DoPut, DoPuts, Puts;
    if i == |entries| {
      NoEntries(env, entries, hit, files);
    } else {
      var fault := FaultAt(hit, i);
      var put := EntryPut(env, entries[i], fault);
      assert GetsTo(env, entries, hit, i, i);
      EntryPath(env, entries[i], fault);
      EntryFirst(env, entries, hit, i, files);
      var next := if put.Some? then DoPut(files, put.value) else files;
      if put.Some? { PutElsewhere(files, put.value, path); }
      if EntryOk(env, entries[i], fault) {
        forall n | i + 1 <= n < |entries| && entries[n].path == path ensures !GetsTo(env, entries, hit, i + 1, n) {
          GetsOn(env, entries, hit, i, n);
        }
        OthersUntouched(env, entries, hit, i + 1, next, path);
      }
    }
  }

  /** The file of an entry that the run gets to and that succeeds, if no other entry has its path, is
      what that entry makes of the file there was before. */
  lemma {:induction false} OwnFileWritten(env: Env, entries: seq<Entry>, hit: Hit, i: nat, files: map<string, File>, n: nat)
    requires i <= n < |entries| && GetsTo(env, entries, hit, i, n + 1)
    requires forall m :: i <= m < |entries| && m != n ==> entries[m].path != entries[n].path
    ensures var t, path := DoPuts(files, Puts(env, entries, hit, i)), entries[n].path;
            path in t && Wrote(env, entries[n], Existing(files, path), t[path])
    decreases |entries| - i
  {
    hide EntryPut, EntryOk, DoPuts, Puts, Wrote;
    var fault, path := FaultAt(hit, i), entries[n].path;
    assert EntryOk(env, entries[i], fault);
    var put := EntryPut(env, entries[i], fault);
    EntryPath(env, entries[i], fault);
    EntryFirst(env, entries, hit, i, files);
    var next := if put.Some? then DoPut(files, put.value) else files;
    if i == n {
      EntryWrites(env, entries[n], fault, files);
      OthersUntouched(env, entries, hit, i + 1, next, path);
    } else {
      if put.Some? { PutElsewhere(files, put.value, path); }
      OwnFileWritten(env, entries, hit, i + 1, next, n);
    }
  }
}
