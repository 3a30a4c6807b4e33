/** The provider ID that the ByoMachine controller writes on the workload cluster's Node, and
    the pattern check it makes when the Node already has one. The host name is put into the
    pattern unquoted, so each dot of the name matches any character, and the pattern is not
    anchored. */
module ProviderId {
  import opened Objects

  const PREFIX := "byoh://"

  predicate NameChar(c: char) {
    'a' <= c <= 'z' || '0' <= c <= '9' || c == '-' || c == '.'
  }

  predicate SuffixChar(c: char) {
    'a' <= c <= 'z' || '0' <= c <= '9' || 'A' <= c <= 'Z'
  }

  /** Every Kubernetes object name satisfies this. */
  predicate LegalName(name: string) {
    name != [] && forall i :: 0 <= i < |name| ==> NameChar(name[i])
  }

  predicate LegalSuffix(suffix: string) {
    suffix != [] && forall i :: 0 <= i < |suffix| ==> SuffixChar(suffix[i])
  }

  /** Does `name`, read as a pattern, match `text`? */
  predicate NameMatches(name: string, text: string) {
    && |name| == |text|
    && forall i :: 0 <= i < |name| ==> if name[i] == '.' then text[i] != '\n' else name[i] == text[i]
  }

  predicate MatchesAt(name: string, id: string, at: nat) {
    var host := at + |PREFIX|;
    var slash := host + |name|;
    && slash + 1 < |id|
    && id[at..host] == PREFIX
    && NameMatches(name, id[host..slash])
    && id[slash] == '/'
    && id[slash + 1] != '\n'
  }

  predicate Accepts(name: string, id: string) {
    exists at: nat :: at < |id| && MatchesAt(name, id, at)
  }

  function Generate(name: string, suffix: string): string {
    PREFIX + name + "/" + suffix
  }

  /** What the controller makes of a node whose provider ID is `current`: the ID it returns and
      leaves on the node, or None for the error return that leaves the node as it is. */
  function SetNodeProviderID(name: string, current: string, suffix: string): Option<string> {
    if current == "" then Some(Generate(name, suffix))
    else if Accepts(name, current) then Some(current)
    else None
  }

  /** An ID is refused if and only if there is one and it does not pass the check. */
  lemma RefusedIff(name: string, current: string, suffix: string)
    ensures SetNodeProviderID(name, current, suffix).None? <==> current != "" && !Accepts(name, current)
  {
    hide Accepts, Generate;
  }

  lemma GenerateParts(name: string, suffix: string)
    ensures var id := Generate(name, suffix);
            && |id| == 8 + |name| + |suffix|
            && id[..7] == PREFIX
            && id[7..7 + |name|] == name
            && id[7 + |name|] == '/'
            && id[8 + |name|..] == suffix
  {
    var id := Generate(name, suffix);
    assert id == PREFIX + (name + ("/" + suffix));
    assert id[7..] == name + ("/" + suffix);
    assert id[7..][|name|..] == "/" + suffix;
  }

  /** The stored ID of one host passes the check for another host exactly when the names have
      the same length and agree wherever the checked name has no dot. */
  lemma AcceptsIff(name: string, other: string, suffix: string)
    requires LegalName(name) && LegalName(other) && LegalSuffix(suffix)
    ensures Accepts(name, Generate(other, suffix)) <==> NameMatches(name, other)
  {
    var id := Generate(other, suffix);
    GenerateParts(other, suffix);
    forall i | 0 <= i < |id| && id[i] == ':' ensures i == 4 { CharAt(other, suffix, i); }
    forall i | 7 <= i < |id| && id[i] == '/' ensures i == 7 + |other| { CharAt(other, suffix, i); }
    if NameMatches(name, other) {
      CharAt(other, suffix, 8 + |other|);
      assert MatchesAt(name, id, 0);
    }
    if Accepts(name, id) {
      var at: nat :| at < |id| && MatchesAt(name, id, at);
      assert PREFIX[4] == ':';
      assert id[at..at + 7][4] == id[at + 4];
      assert at == 0;
      assert 7 + |name| == 7 + |other|;
    }
  }

  /** The ID that another reconcile has generated, for whatever host, is kept if its host passes the
      check for this one, and refused otherwise. */
  lemma CheckIff(name: string, other: string, suffix: string, next: string)
    requires LegalName(name) && LegalName(other) && LegalSuffix(suffix)
    ensures var id := Generate(other, suffix);
            && (SetNodeProviderID(name, id, next).Some? <==> NameMatches(name, other))
            && (SetNodeProviderID(name, id, next).Some? ==> SetNodeProviderID(name, id, next).value == id)
  {
    hide Accepts;
    GenerateParts(other, suffix);
    AcceptsIff(name, other, suffix);
  }

  /** The ID of a host whose name has another length, or another character where this name has no dot,
      is never taken over. */
  lemma ForeignIdRefused(name: string, other: string, suffix: string, next: string)
    requires LegalName(name) && LegalName(other) && LegalSuffix(suffix)
    requires |name| != |other| || exists i :: 0 <= i < |name| && name[i] != '.' && name[i] != other[i]
    ensures SetNodeProviderID(name, Generate(other, suffix), next) == None
  {
    CheckIff(name, other, suffix, next);
    hide Accepts;
  }

  lemma CharAt(name: string, suffix: string, i: nat)
    requires LegalName(name) && LegalSuffix(suffix) && i < |Generate(name, suffix)|
    ensures var c := Generate(name, suffix)[i];
            if i < 7 then c == PREFIX[i]
            else if i < 7 + |name| then c == name[i - 7] && NameChar(c)
            else if i == 7 + |name| then c == '/'
            else SuffixChar(c)
  {
    GenerateParts(name, suffix);
    var id := Generate(name, suffix);
    if i < 7 { assert id[..7][i] == id[i]; }
    else if i < 7 + |name| { assert id[7..7 + |name|][i - 7] == id[i]; }
    else if i > 7 + |name| { assert id[8 + |name|..][i - 8 - |name|] == id[i]; }
  }

  /** The results of calling the controller once per suffix, and the ID left on the node. */
  function Calls(name: string, current: string, suffixes: seq<string>): (r: seq<Option<string>>)
    ensures |r| == |suffixes|
    decreases |suffixes|
  {
    if suffixes == [] then []
    else
      var first := SetNodeProviderID(name, current, suffixes[0]);
      [first] + Calls(name, if first.Some? then first.value else current, suffixes[1..])
  }

  /** However often the controller runs on a node that starts without an ID, it writes the ID of
      the first call and returns that same ID ever after. */
  lemma {:induction false} WriteOnce(name: string, suffixes: seq<string>)
    requires LegalName(name)
    requires forall i :: 0 <= i < |suffixes| ==> LegalSuffix(suffixes[i])
    ensures var r := Calls(name, "", suffixes);
            forall i :: 0 <= i < |r| ==> r[i] == Some(Generate(name, suffixes[0]))
  {
    if suffixes != [] {
      var id := Generate(name, suffixes[0]);
      AcceptsIff(name, name, suffixes[0]);
      Settled(name, id, suffixes[1..]);
      assert Calls(name, "", suffixes) == [Some(id)] + Calls(name, id, suffixes[1..]);
    }
  }

  lemma {:induction false} Settled(name: string, id: string, suffixes: seq<string>)
    requires id != "" && Accepts(name, id)
    ensures var r := Calls(name, id, suffixes);
            forall i :: 0 <= i < |r| ==> r[i] == Some(id)
  {
    if suffixes != [] {
      Settled(name, id, suffixes[1..]);
      assert Calls(name, id, suffixes) == [Some(id)] + Calls(name, id, suffixes[1..]);
    }
  }
}
