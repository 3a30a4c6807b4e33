/** The bootstrap script executor: writing the files of a script, then running its commands. A file is
    opened without truncation, so a write lies over the old content. */
module CloudInit {
  import opened Objects
  import opened Text

  // ---------------------------------------------------------------- scripts and files

  /** One entry of write_files. */
  datatype Entry = Entry(path: string, encoding: string, owner: string, permissions: string, content: string, append: bool)

  datatype Script = Script(files: seq<Entry>, commands: seq<string>)

  datatype Ids = Ids(uid: nat, gid: nat)

  datatype File = File(content: string, mode: nat, owner: Option<Ids>)

  /** The mode of a file that a write creates. */
  const FILE_PERMISSION := 0x1A4

  const NEW_FILE := File("", FILE_PERMISSION, None)

  /** What the executor calls out to: decoders, the template engine and the user database. Each may
      refuse its argument. */
  datatype Env = Env(base64: string -> Option<string>, gunzip: string -> Option<string>,
                     template: string -> Option<string>, user: string -> Option<Ids>)

  // ---------------------------------------------------------------- content, permissions, owner

  datatype Encoding = Base64 | Gzip | Plain

  /** Go's lower case, as far as it can produce one of the letters below: two letters outside ASCII
      have an ASCII letter as their lower case. */
  function LowerChar(c: char): char {
    if 'A' <= c <= 'Z' then ((c as int) + 32) as char
    else if c == '\U{130}' then 'i'
    else if c == '\U{212A}' then 'k'
    else c
  }

  function Lowered(s: string): string {
    seq(|s|, i requires 0 <= i < |s| => LowerChar(s[i]))
  }

  function EncodingScheme(e: string): seq<Encoding> {
    var name := TrimSpace(Lowered(e));
    if name in {"gz+base64", "gzip+base64", "gz+b64", "gzip+b64"} then [Base64, Gzip]
    else if name in {"base64", "b64"} then [Base64]
    else [Plain]
  }

  function Decoded(env: Env, content: string, encodings: seq<Encoding>): Option<string>
    decreases |encodings|
  {
    if encodings == [] then Some(content)
    else
      var next := match encodings[0]
        case Base64 => env.base64(content)
        case Gzip => env.gunzip(content)
        case Plain => Some(content);
      if next.None? then None else Decoded(env, next.value, encodings[1..])
  }

  method DecodeContent(env: Env, content: string, encodings: seq<Encoding>) returns (r: Option<string>)
    ensures r == Decoded(env, content, encodings)
  {
    var text := content;
    var i := 0;
    while i < |encodings|
      invariant 0 <= i <= |encodings|
      invariant Decoded(env, text, encodings[i..]) == Decoded(env, content, encodings)
    {
      var next := Some(text);
      match encodings[i] {
        case Base64 => next := env.base64(text);
        case Gzip => next := env.gunzip(text);
        case Plain =>
      }
      if next.None? { return None; }
      text := next.value;
      i := i + 1;
    }
    return Some(text);
  }

  /** What an entry writes. */
  function TextOf(env: Env, e: Entry): Option<string> {
    var decoded := Decoded(env, e.content, EncodingScheme(e.encoding));
    if decoded.None? then None else env.template(decoded.value)
  }

  function OctalValue(s: string): nat
    requires forall i :: 0 <= i < |s| ==> '0' <= s[i] <= '7'
  {
    if s == "" then 0 else OctalValue(s[..|s| - 1]) * 8 + (s[|s| - 1] as int - '0' as int)
  }

  /** strconv.ParseUint(s, 8, 32). */
  function ParseOctal(s: string): Option<nat> {
    if s == "" || exists i :: 0 <= i < |s| && !('0' <= s[i] <= '7') then None
    else if OctalValue(s) >= 0x1_0000_0000 then None
    else Some(OctalValue(s))
  }

  /** The owner is looked up by the part before the colon; the group is that user's. */
  function OwnerOf(env: Env, owner: string): Option<Ids> {
    var parts := Split(owner, ':');
    if |parts| != 2 then None else env.user(parts[0])
  }

  // ---------------------------------------------------------------- one entry

  function Laid(before: string, text: string): string {
    if |text| >= |before| then text else text + before[|text|..]
  }

  /** What one entry, or the part of it that was carried out, does to its file. */
  datatype Put = Put(path: string, append: bool, text: string, mode: Option<nat>, owner: Option<Ids>)

  function Existing(files: map<string, File>, path: string): File {
    if path in files then files[path] else NEW_FILE
  }

  function PutFile(f: File, p: Put): File {
    File(if p.append then f.content + p.text else Laid(f.content, p.text),
         if p.mode.Some? then p.mode.value else f.mode,
         if p.owner.Some? then p.owner else f.owner)
  }

  function DoPut(files: map<string, File>, p: Put): map<string, File> {
    files[p.path := PutFile(Existing(files, p.path), p)]
  }

  function DoPuts(files: map<string, File>, puts: seq<Put>): map<string, File>
    decreases |puts|
  {
    if puts == [] then files else DoPuts(DoPut(files, puts[0]), puts[1..])
  }

  /** The call that fails from outside, if any; a failing write may have written any part. */
  datatype Fault = NoFault | AtMkdir | AtOpen | AtWrite(written: nat) | AtChmod | AtChown | AtClose

  /** What writing a file carries out, if the file is opened at all. */
  function Carried(env: Env, e: Entry, text: string, fault: Fault): Option<Put> {
    if fault == AtOpen then None
    else if fault.AtWrite? then
      Some(Put(e.path, e.append, text[..if fault.written <= |text| then fault.written else |text|], None, None))
    else
      var put := Put(e.path, e.append, text, None, None);
      if e.permissions != "" && (ParseOctal(e.permissions).None? || fault == AtChmod) then Some(put)
      else
        var moded := put.(mode := if e.permissions != "" then ParseOctal(e.permissions) else None);
        if e.owner != "" && (OwnerOf(env, e.owner).None? || fault == AtChown) then Some(moded)
        else Some(moded.(owner := if e.owner != "" then OwnerOf(env, e.owner) else None))
  }

  predicate CarriedOut(env: Env, e: Entry, fault: Fault) {
    && fault != AtOpen && !fault.AtWrite? && fault != AtClose
    && (e.permissions != "" ==> ParseOctal(e.permissions).Some? && fault != AtChmod)
    && (e.owner != "" ==> OwnerOf(env, e.owner).Some? && fault != AtChown)
  }

  /** What is carried out of an entry, from the directory on. */
  function EntryPut(env: Env, e: Entry, fault: Fault): Option<Put> {
    if fault == AtMkdir || TextOf(env, e).None? then None else Carried(env, e, TextOf(env, e).value, fault)
  }

  /** Does the entry succeed? */
  predicate EntryOk(env: Env, e: Entry, fault: Fault) {
    fault != AtMkdir && TextOf(env, e).Some? && CarriedOut(env, e, fault)
  }

  // ---------------------------------------------------------------- a script

  /** Where a run of a script is hit: at an entry, at a command, or nowhere. */
  datatype Hit = Nowhere | InFile(index: nat, fault: Fault) | InCommand(index: nat)

  function FaultAt(hit: Hit, i: nat): Fault {
    if hit.InFile? && hit.index == i then hit.fault else NoFault
  }

  /** The puts of a run from entry `i` on: it stops behind the first entry that fails. */
  function Puts(env: Env, files: seq<Entry>, hit: Hit, i: nat): seq<Put>
    requires i <= |files|
    decreases |files| - i
  {
    if i == |files| then []
    else
      var fault := FaultAt(hit, i);
      var put := EntryPut(env, files[i], fault);
      (if put.Some? then [put.value] else []) +
      (if EntryOk(env, files[i], fault) then Puts(env, files, hit, i + 1) else [])
  }

  ghost predicate AllWritten(env: Env, files: seq<Entry>, hit: Hit) {
    forall i :: 0 <= i < |files| ==> EntryOk(env, files[i], FaultAt(hit, i))
  }

  /** Is one of the commands hit? */
  predicate CommandFails(commands: seq<string>, hit: Hit) {
    hit.InCommand? && hit.index < |commands|
  }

  /** The disk of the host, and the commands that were run on it. */
  class Machine {
    var files: map<string, File>
    var ran: seq<string>

    constructor (files: map<string, File>)
      ensures this.files == files && ran == []
    {
      this.files := files;
      ran := [];
    }

    method WriteToFile(env: Env, e: Entry, text: string, fault: Fault) returns (ok: bool)
      modifies this`files
      ensures ok == CarriedOut(env, e, fault)
      ensures var put := Carried(env, e, text, fault); files == if put.Some? then DoPut(old(files), put.value) else old(files)
    {
      hide ParseOctal, OwnerOf, Laid;
      if fault == AtOpen { return false; }
      var f := if e.path in files then files[e.path] else NEW_FILE;
      var n := if fault.AtWrite? && fault.written <= |text| then fault.written else |text|;
      f := f.(content := if e.append then f.content + text[..n] else Laid(f.content, text[..n]));
      files := files[e.path := f];
      assert text[..|text|] == text;
      if fault.AtWrite? { return false; }
      if e.permissions != "" {
        var mode := ParseOctal(e.permissions);
        if mode.None? || fault == AtChmod { return false; }
        f := f.(mode := mode.value);
        files := files[e.path := f];
        assert files == old(files)[e.path := f];
      }
      if e.owner != "" {
        var ids := OwnerOf(env, e.owner);
        if ids.None? || fault == AtChown { return false; }
        f := f.(owner := ids);
        files := files[e.path := f];
        assert files == old(files)[e.path := f];
      }
      return fault != AtClose;
    }

    method WriteFiles(env: Env, entries: seq<Entry>, hit: Hit) returns (ok: bool)
      modifies this`files
      ensures files == DoPuts(old(files), Puts(env, entries, hit, 0))
      ensures ok == AllWritten(env, entries, hit)
    {
      hide TextOf, Carried, CarriedOut, DoPuts, DoPut, Puts;
      var i := 0;
      while i < |entries|
        invariant 0 <= i <= |entries|
        invariant forall n :: 0 <= n < i ==> EntryOk(env, entries[n], FaultAt(hit, n))
        invariant DoPuts(files, Puts(env, entries, hit, i)) == DoPuts(old(files), Puts(env, entries, hit, 0))
      {
        var e, fault := entries[i], FaultAt(hit, i);
        EntryFirst(env, entries, hit, i, files);
        EntryStops(env, e, fault);
        if fault == AtMkdir { return false; }
        var text := DecodeContent(env, e.content, EncodingScheme(e.encoding));
        if text.None? { return false; }
        text := env.template(text.value);
        if text.None? { return false; }
        var written := WriteToFile(env, e, text.value, fault);
        if !written { return false; }
        i := i + 1;
      }
      NoEntries(env, entries, hit, files);
      return true;
    }

    method RunCommands(commands: seq<string>, hit: Hit) returns (ok: bool)
      modifies this`ran
      ensures CommandFails(commands, hit) ==> !ok && ran == old(ran) + commands[..hit.index + 1]
      ensures !CommandFails(commands, hit) ==> ok && ran == old(ran) + commands
    {
      var j := 0;
      while j < |commands|
        invariant 0 <= j <= |commands|
        invariant ran == old(ran) + commands[..j] && (hit.InCommand? ==> j <= hit.index || hit.index >= |commands|)
      {
        ran := ran + [commands[j]];
        j := j + 1;
        assert commands[..j - 1] + [commands[j - 1]] == commands[..j];
        if hit == InCommand(j - 1) { return false; }
      }
      assert commands[..j] == commands;
      return true;
    }

    /** `script` is None when the text is not a script. No command runs unless every file has been
        written. */
    method Execute(env: Env, script: Option<Script>, hit: Hit) returns (ok: bool)
      modifies this
      ensures script.None? ==> !ok && files == old(files) && ran == old(ran)
      ensures script.Some? ==>
                && files == DoPuts(old(files), Puts(env, script.value.files, hit, 0))
                && ran == (if !AllWritten(env, script.value.files, hit) then old(ran)
                           else if CommandFails(script.value.commands, hit) then old(ran) + script.value.commands[..hit.index + 1]
                           else old(ran) + script.value.commands)
                && ok == (AllWritten(env, script.value.files, hit) && !CommandFails(script.value.commands, hit))
      ensures script.Some? && (ok || ran != old(ran)) ==>
                forall i :: 0 <= i < |script.value.files| ==> EntryOk(env, script.value.files[i], FaultAt(hit, i))
    {
      hide EntryOk, DoPuts, Puts;
      if script.None? { return false; }
      var written := WriteFiles(env, script.value.files, hit);
      if !written { return false; }
      ok := RunCommands(script.value.commands, hit);
    }
  }

  /** What the puts of a run from entry `i` on do to the files, entry by entry. */
  lemma EntryFirst(env: Env, entries: seq<Entry>, hit: Hit, i: nat, files: map<string, File>)
    requires i < |entries|
    ensures var put := EntryPut(env, entries[i], FaultAt(hit, i));
            var next := if put.Some? then DoPut(files, put.value) else files;
            DoPuts(files, Puts(env, entries, hit, i)) ==
              if EntryOk(env, entries[i], FaultAt(hit, i)) then DoPuts(next, Puts(env, entries, hit, i + 1)) else next
  {
    var put := EntryPut(env, entries[i], FaultAt(hit, i));
    hide EntryPut, EntryOk;
    if put.Some? {
      var rest := if EntryOk(env, entries[i], FaultAt(hit, i)) then Puts(env, entries, hit, i + 1) else [];
      assert ([put.value] + rest)[1..] == rest;
    }
  }

  lemma NoEntries(env: Env, entries: seq<Entry>, hit: Hit, files: map<string, File>)
    ensures DoPuts(files, Puts(env, entries, hit, |entries|)) == files
  {
  }

  lemma EntryStops(env: Env, e: Entry, fault: Fault)
    ensures TextOf(env, e) == (var d := Decoded(env, e.content, EncodingScheme(e.encoding)); if d.None? then None else env.template(d.value))
    ensures fault == AtMkdir || TextOf(env, e).None? ==> EntryPut(env, e, fault).None? && !EntryOk(env, e, fault)
  {
    hide EncodingScheme, Decoded;
  }

  // ---------------------------------------------------------------- a put that is done again

  /** `p` is a part of `q`. */
  predicate PartOf(p: Put, q: Put) {
    && p.path == q.path && p.append == q.append && p.text <= q.text
    && (p.mode.Some? ==> p.mode == q.mode) && (p.owner.Some? ==> p.owner == q.owner)
  }

  predicate Appends(q: Put) { q.append && q.text != "" }

  ghost predicate NoAppends(puts: seq<Put>) {
    forall i :: 0 <= i < |puts| ==> !Appends(puts[i])
  }

  /** The contents differ only in their first `n` characters. */
  predicate SameBeyond(n: nat, x: string, y: string) {
    (|x| <= n && |y| <= n) || (|x| == |y| && n <= |x| && x[n..] == y[n..])
  }

  /** The files differ only in what `p` writes. */
  predicate Near(p: Put, f: File, g: File) {
    && SameBeyond(|p.text|, f.content, g.content)
    && (f.mode == g.mode || p.mode.Some?)
    && (f.owner == g.owner || p.owner.Some?)
  }

  ghost predicate NearAll(p: Put, a: map<string, File>, b: map<string, File>) {
    && Near(p, Existing(a, p.path), Existing(b, p.path))
    && forall x :: x != p.path ==> (x in a <==> x in b) && (x in a ==> a[x] == b[x])
  }

  lemma LaidAgain(n: nat, x: string, y: string, text: string)
    requires SameBeyond(n, x, y)
    ensures SameBeyond(n, Laid(x, text), Laid(y, text))
    ensures |text| >= n ==> Laid(x, text) == Laid(y, text)
  {
    var a, b := Laid(x, text), Laid(y, text);
    if |x| == |y| && n <= |x| {
      forall i | n <= i < |a| ensures a[i] == b[i] { assert i < |x| ==> x[i] == x[n..][i - n] && y[i] == y[n..][i - n]; }
      if |text| >= n { forall i | 0 <= i < |a| ensures a[i] == b[i] { } assert a == b; }
    }
  }

  lemma PutIsNear(p: Put, a: map<string, File>)
    requires !Appends(p)
    ensures NearAll(p, DoPut(a, p), a)
  {
    var x := Existing(a, p.path).content;
    assert Laid(x, p.text)[|p.text|..] == if |x| <= |p.text| then [] else x[|p.text|..];
  }

  /** Another put keeps the difference, and one that `p` is a part of ends it. */
  lemma NearStep(p: Put, a: map<string, File>, b: map<string, File>, q: Put)
    requires NearAll(p, a, b) && !Appends(q)
    ensures NearAll(p, DoPut(a, q), DoPut(b, q))
    ensures PartOf(p, q) ==> DoPut(a, q) == DoPut(b, q)
  {
    if q.path == p.path {
      LaidAgain(|p.text|, Existing(a, p.path).content, Existing(b, p.path).content, q.text);
    } else {
      assert Existing(a, q.path) == Existing(b, q.path);
    }
    var c, d := DoPut(a, q), DoPut(b, q);
    if PartOf(p, q) { assert forall x :: (x in c <==> x in d) && (x in c ==> c[x] == d[x]); }
  }

  lemma {:induction false} NearRun(p: Put, a: map<string, File>, b: map<string, File>, puts: seq<Put>, j: nat)
    requires NearAll(p, a, b) && NoAppends(puts) && j < |puts| && PartOf(p, puts[j])
    ensures DoPuts(a, puts) == DoPuts(b, puts)
    decreases |puts|
  {
    NearStep(p, a, b, puts[0]);
    if j > 0 { NearRun(p, DoPut(a, puts[0]), DoPut(b, puts[0]), puts[1..], j - 1); }
  }

  lemma {:induction false} DoPutsAppend(files: map<string, File>, x: seq<Put>, y: seq<Put>)
    ensures DoPuts(files, x + y) == DoPuts(DoPuts(files, x), y)
    decreases |x|
  {
    hide DoPut;
    if x == [] { assert x + y == y; }
    else { DoPutsAppend(DoPut(files, x[0]), x[1..], y); assert (x + y)[1..] == x[1..] + y; }
  }

  /** Any puts each of which is a part of some put of `full` are absorbed by `full`. */
  lemma {:induction false} Absorbed(files: map<string, File>, part: seq<Put>, full: seq<Put>)
    requires NoAppends(full) && |part| <= |full| && forall i :: 0 <= i < |part| ==> PartOf(part[i], full[i])
    ensures DoPuts(DoPuts(files, part), full) == DoPuts(files, full)
    decreases |part|
  {
    if part != [] {
      var n := |part| - 1;
      var p, front := part[n], part[..n];
      assert part == front + [p];
      DoPutsAppend(files, front, [p]);
      var a := DoPuts(files, front);
      assert DoPuts(a, [p]) == DoPut(a, p) by { assert [p][1..] == []; }
      assert PartOf(p, full[n]) && !Appends(full[n]);
      PutIsNear(p, a);
      NearRun(p, DoPut(a, p), a, full, n);
      Absorbed(files, front, full);
    }
  }

  // ---------------------------------------------------------------- a run that is done again

  lemma FaultyEntry(env: Env, e: Entry, fault: Fault)
    ensures var p, q := EntryPut(env, e, fault), EntryPut(env, e, NoFault);
            && (p.Some? ==> q.Some? && PartOf(p.value, q.value))
            && (EntryOk(env, e, fault) ==> EntryOk(env, e, NoFault) && p == q)
            && (EntryOk(env, e, NoFault) ==> q.Some?)
            && EntryPut(env, e, AtClose) == q && !EntryOk(env, e, AtClose)
  {
    hide TextOf, ParseOctal, OwnerOf;
  }

  /** A run that is hit does a part of what a full run does. */
  lemma {:induction false} HitIsPart(env: Env, files: seq<Entry>, hit: Hit, i: nat)
    requires i <= |files|
    ensures var part, full := Puts(env, files, hit, i), Puts(env, files, Nowhere, i);
            |part| <= |full| && forall n :: 0 <= n < |part| ==> PartOf(part[n], full[n])
    decreases |files| - i
  {
    hide EntryPut, EntryOk, PartOf;
    if i < |files| {
      FaultyEntry(env, files[i], FaultAt(hit, i));
      HitIsPart(env, files, hit, i + 1);
    }
  }

  /** Every put of a full run is the last one of some run that is hit. */
  lemma {:induction false} CutAfter(env: Env, files: seq<Entry>, i: nat, j: nat) returns (hit: Hit)
    requires i <= |files| && j < |Puts(env, files, Nowhere, i)|
    ensures hit.InFile? && hit.index >= i && Puts(env, files, hit, i) == Puts(env, files, Nowhere, i)[..j + 1]
    decreases |files| - i
  {
    hide EntryPut, EntryOk;
    FaultyEntry(env, files[i], NoFault);
    var full := Puts(env, files, Nowhere, i);
    if j == 0 {
      hit := InFile(i, AtClose);
      assert full[..1] == [full[0]];
    } else {
      hit := CutAfter(env, files, i + 1, j - 1);
      assert full[..j + 1] == [full[0]] + full[1..][..j];
    }
  }

  function Appended(puts: seq<Put>, path: string): nat
    decreases |puts|
  {
    if puts == [] then 0
    else (if puts[0].append && puts[0].path == path then |puts[0].text| else 0) + Appended(puts[1..], path)
  }

  lemma {:induction false} AppendedCounts(puts: seq<Put>, path: string, j: nat)
    requires j < |puts| && puts[j].append && puts[j].path == path
    ensures Appended(puts, path) >= |puts[j].text|
    decreases |puts|
  {
    if j > 0 { AppendedCounts(puts[1..], path, j - 1); }
  }

  /** Over a file longer than every text, only appending changes the length. */
  lemma {:induction false} LengthAfter(files: map<string, File>, puts: seq<Put>, path: string)
    requires path in files && forall i :: 0 <= i < |puts| ==> |puts[i].text| <= |files[path].content|
    ensures path in DoPuts(files, puts) && |DoPuts(files, puts)[path].content| == |files[path].content| + Appended(puts, path)
    decreases |puts|
  {
    if puts != [] { LengthAfter(DoPut(files, puts[0]), puts[1..], path); }
  }

  function Longest(puts: seq<Put>): (n: nat)
    ensures forall i :: 0 <= i < |puts| ==> |puts[i].text| <= n
    decreases |puts|
  {
    if puts == [] then 0
    else
      var n := Longest(puts[1..]);
      assert forall i :: 1 <= i < |puts| ==> puts[i] == puts[1..][i - 1];
      if n >= |puts[0].text| then n else |puts[0].text|
  }

  /** With an append, retrying behind it appends again. */
  lemma AppendedTwice(full: seq<Put>, j: nat) returns (files: map<string, File>)
    requires j < |full| && Appends(full[j])
    ensures DoPuts(DoPuts(files, full[..j + 1]), full) != DoPuts(files, full)
  {
    var path := full[j].path;
    files := map[path := File(seq(Longest(full), _ => ' '), 0, None)];
    LengthAfter(files, full, path);
    LengthAfter(files, full[..j + 1], path);
    AppendedCounts(full[..j + 1], path, j);
    LengthAfter(DoPuts(files, full[..j + 1]), full, path);
  }

  ghost predicate Retries(env: Env, script: seq<Entry>) {
    forall files, hit :: RetryIsOneRun(env, script, files, hit)
  }

  predicate RetryIsOneRun(env: Env, script: seq<Entry>, files: map<string, File>, hit: Hit) {
    var full := Puts(env, script, Nowhere, 0);
    DoPuts(DoPuts(files, Puts(env, script, hit, 0)), full) == DoPuts(files, full)
  }

  /** A run that is hit anywhere, then a full run, leave the same files as one full run, whatever
      files there were before, if and only if the full run appends nothing. Paths may be repeated,
      and writes may have been partial. */
  lemma RetryIff(env: Env, script: seq<Entry>)
    ensures Retries(env, script) <==> NoAppends(Puts(env, script, Nowhere, 0))
  {
    var full := Puts(env, script, Nowhere, 0);
    if NoAppends(full) {
      forall files, hit ensures RetryIsOneRun(env, script, files, hit) {
        HitIsPart(env, script, hit, 0);
        Absorbed(files, Puts(env, script, hit, 0), full);
      }
    } else {
      var j :| 0 <= j < |full| && Appends(full[j]);
      var hit := CutAfter(env, script, 0, j);
      var files := AppendedTwice(full, j);
      assert !RetryIsOneRun(env, script, files, hit);
    }
  }

  lemma PlainPut(env: Env, e: Entry, fault: Fault)
    requires !e.append
    ensures EntryPut(env, e, fault).Some? ==> !Appends(EntryPut(env, e, fault).value)
  {
    hide TextOf, ParseOctal, OwnerOf;
  }

  /** In particular a script whose entries do not ask to append may be retried. */
  lemma {:induction false} PlainScriptRetries(env: Env, script: seq<Entry>, i: nat)
    requires i <= |script| && forall n :: 0 <= n < |script| ==> !script[n].append
    ensures NoAppends(Puts(env, script, Nowhere, i))
    decreases |script| - i
  {
    hide EntryOk, EntryPut, Appends;
    if i < |script| {
      PlainScriptRetries(env, script, i + 1);
      PlainPut(env, script[i], NoFault);
    }
  }
}
