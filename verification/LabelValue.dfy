/** The value of the label that ties a ByoHost to its ByoMachine: namespace and name joined by a dot,
    or, when that is too long for a label, a prefix of it and a hash. */
module LabelValue {
  import opened Objects
  import opened Text
  import opened Manager
  import opened Protocol

  const MAX_LENGTH := 63
  const HASH_LENGTH := 8
  const SEPARATOR := "-"
  const PREFIX_LENGTH := MAX_LENGTH - HASH_LENGTH - |SEPARATOR|

  predicate Lower(c: char) { 'a' <= c <= 'z' || '0' <= c <= '9' }
  predicate Upper(c: char) { 'A' <= c <= 'Z' }
  predicate Hex(c: char) { '0' <= c <= '9' || 'a' <= c <= 'f' }

  /** A label of the host-name syntax in section 2.1 of RFC 1123. */
  predicate DnsLabel(s: string) {
    && 1 <= |s| <= 63 && Lower(s[0]) && Lower(s[|s| - 1])
    && forall i :: 0 <= i < |s| ==> Lower(s[i]) || s[i] == '-'
  }

  /** A sequence of such labels, joined by dots; the length of each is not limited. */
  predicate DnsSubdomain(s: string) {
    && 1 <= |s| <= 253 && Lower(s[0]) && Lower(s[|s| - 1])
    && (forall i :: 0 <= i < |s| ==> Lower(s[i]) || s[i] == '-' || s[i] == '.')
    && (forall i :: 0 < i < |s| - 1 && s[i] == '.' ==> Lower(s[i - 1]) && Lower(s[i + 1]))
  }

  /** What Kubernetes accepts as the value of a label. */
  predicate LegalLabelValue(s: string) {
    && |s| <= 63
    && (s != "" ==> (Lower(s[0]) || Upper(s[0])) && (Lower(s[|s| - 1]) || Upper(s[|s| - 1])))
    && forall i :: 0 <= i < |s| ==> Lower(s[i]) || Upper(s[i]) || s[i] in {'-', '_', '.'}
  }

  predicate Legal(k: Key) { DnsLabel(k.ns) && DnsSubdomain(k.name) }

  /** A hash printed in hexadecimal, of at least as many digits as are used. */
  ghost predicate IsHash(hash: string -> string) {
    forall s: string :: |hash(s)| >= HASH_LENGTH && forall i :: 0 <= i < |hash(s)| ==> Hex(hash(s)[i])
  }

  function Joined(k: Key): string {
    k.ns + "." + k.name
  }

  function Encoded(hash: string -> string, text: string): string
    requires |hash(text)| >= HASH_LENGTH
  {
    if |text| <= MAX_LENGTH then text
    else text[..PREFIX_LENGTH] + SEPARATOR + hash(text)[..HASH_LENGTH]
  }

  ghost function SafeLabelValue(hash: string -> string, k: Key): string
    requires IsHash(hash)
  {
    Encoded(hash, Joined(k))
  }

  /** Namespace and name can be read off the value of a name that fits. */
  lemma FittingValueTells(hash: string -> string, k: Key)
    requires IsHash(hash) && Legal(k) && |k.ns| + 1 + |k.name| <= 63
    ensures Cut(SafeLabelValue(hash, k), '.') == Some((k.ns, k.name))
  {
    assert Free(k.ns, '.');
    CutAt(k.ns, k.name, '.');
  }

  /** The value of a name that does not fit is the start of namespace, dot and name, a dash, and the start
      of the hash of all of it. */
  lemma LongValueParts(hash: string -> string, k: Key)
    requires IsHash(hash) && |k.ns| + 1 + |k.name| > 63
    ensures var r, s := SafeLabelValue(hash, k), k.ns + "." + k.name;
            |r| == 63 && r[..54] == s[..54] && r[54] == '-' && r[55..] == hash(s)[..8]
  {
    var r, s := SafeLabelValue(hash, k), k.ns + "." + k.name;
    assert r == s[..54] + "-" + hash(s)[..8];
  }

  /** The value is always a legal label value. */
  lemma AlwaysLegal(hash: string -> string, k: Key)
    requires IsHash(hash) && Legal(k)
    ensures LegalLabelValue(SafeLabelValue(hash, k))
  {
    var s := Joined(k);
    var r := SafeLabelValue(hash, k);
    assert s[0] == k.ns[0] && s[|s| - 1] == k.name[|k.name| - 1];
    forall i | 0 <= i < |s| ensures Lower(s[i]) || s[i] in {'-', '.'} {
      if i < |k.ns| { assert s[i] == k.ns[i]; }
      else if i > |k.ns| { assert s[i] == k.name[i - |k.ns| - 1]; }
    }
    if |s| > MAX_LENGTH {
      forall i | 0 <= i < |r| ensures Lower(r[i]) || r[i] in {'-', '.'} {
        if i < PREFIX_LENGTH { assert r[i] == s[i]; }
        else if i > PREFIX_LENGTH { assert r[i] == hash(s)[i - PREFIX_LENGTH - 1]; }
      }
      assert r[0] == s[0] && r[|r| - 1] == hash(s)[HASH_LENGTH - 1];
    }
  }

  lemma JoinedInjective(a: Key, b: Key)
    requires Legal(a) && Legal(b) && Joined(a) == Joined(b)
    ensures a == b
  {
    CutAt(a.ns, a.name, '.');
    CutAt(b.ns, b.name, '.');
  }

  /** Exactly when two names get the same value. */
  lemma CollideIff(hash: string -> string, x: string, y: string)
    requires IsHash(hash)
    ensures Encoded(hash, x) == Encoded(hash, y) <==>
            || x == y
            || (|x| > 63 && |y| > 63 && x[..54] == y[..54] && hash(x)[..8] == hash(y)[..8])
            || (|x| > 63 && |y| == 63 && y == x[..54] + "-" + hash(x)[..8])
            || (|y| > 63 && |x| == 63 && x == y[..54] + "-" + hash(y)[..8])
  {
    if |x| > 63 && |y| > 63 {
      var a, b := Encoded(hash, x), Encoded(hash, y);
      assert a[..54] == x[..54] && b[..54] == y[..54];
      assert a[55..] == hash(x)[..8] && b[55..] == hash(y)[..8];
    }
  }

  /** A name that leaves the last place of the label free shares its value with no other name. */
  lemma ShortIsUnique(hash: string -> string, a: Key, b: Key)
    requires IsHash(hash) && Legal(a) && Legal(b)
    requires |Joined(a)| < MAX_LENGTH || (|Joined(a)| <= MAX_LENGTH && |Joined(b)| <= MAX_LENGTH)
    ensures SafeLabelValue(hash, a) == SafeLabelValue(hash, b) ==> a == b
  {
    CollideIff(hash, Joined(a), Joined(b));
    if Joined(a) == Joined(b) { JoinedInjective(a, b); }
  }

  /** With the code's own label values, what the protocol demands of the label value of a new machine
      holds by itself, if its name and the names it must be told apart from fit. */
  lemma FittingNamesAreFree(w: World, hash: string -> string, s: System, k: Key)
    requires IsHash(hash) && forall x :: w.tag(x) == SafeLabelValue(hash, x)
    requires Fits(k) && k !in s.machines && forall x :: x in s.machines ==> Fits(x)
    requires forall h :: h in s.hosts && s.hosts[h].machineRef.Some? ==> s.hosts[h].machineRef != Some(k) && Fits(s.hosts[h].machineRef.value)
    ensures TagFree(w, s, k)
  {
    forall x | Fits(x) && x != k ensures w.tag(x) != w.tag(k) { ShortIsUnique(hash, x, k); }
  }

  predicate Fits(k: Key) { Legal(k) && |Joined(k)| <= MAX_LENGTH }
}
