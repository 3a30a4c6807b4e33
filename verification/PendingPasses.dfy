/** Passes of the agent that are under way: when each takes effect, what the store looks like once
    those that have taken effect are counted in, and what beginning, acting and committing do to it. */
module PendingPasses {
  import opened Objects
  import opened Agent
  import opened Manager
  import opened Protocol
  import opened References
  import opened Overlay
  import opened SplitRuns

  // ---------------------------------------------------------------- the abstraction

  /** Does the pass take effect when it begins? */
  predicate Early(p: Pending) {
    p.readable && Cleanup !in p.base.notes
  }

  /** Does it take effect when it commits? A pass that is neither will never have read its scripts. */
  predicate Late(p: Pending) {
    p.readable && Cleanup in p.base.notes
  }

  /** The conditions that early passes have written already. */
  function Shown(pending: map<Key, Pending>): map<Key, Conditions> {
    map h | h in pending && Early(pending[h]) && !pending[h].lost ::
      Conditions(Mine(pending[h]).host.node, Mine(pending[h]).host.components)
  }

  predicate IsTold(s: System, h: Key, p: Pending) {
    Early(p) || (Late(p) && h !in s.hosts)
  }

  /** The traces of early passes, and of cleanups whose host is gone. */
  function Told(s: System, pending: map<Key, Pending>): map<Key, seq<Event>> {
    map h | h in pending && IsTold(s, h, pending[h]) :: Trace(s, h) + Mine(pending[h]).events
  }

  predicate IsComing(p: Pending) {
    Early(p) && !p.acted && p.joins.Some?
  }

  /** The nodes that early passes have joined already. */
  function Coming(pending: map<Key, Pending>): set<Key> {
    set h | h in pending && IsComing(pending[h]) :: pending[h].joins.value
  }

  function LayerOf(x: Split): Layer {
    Layer(Shown(x.pending), Told(x.sys, x.pending), Coming(x.pending))
  }

  function Abs(x: Split): (t: System)
    ensures t == x.sys.(hosts := t.hosts, trace := t.trace, nodes := t.nodes)
  {
    Over(x.sys, LayerOf(x))
  }

  lemma AbsIs(x: Split)
    ensures Abs(x).hosts == Dress(x.sys.hosts, Shown(x.pending)) && Abs(x).trace == x.sys.trace + Told(x.sys, x.pending)
    ensures Abs(x).nodes == WithComing(x.sys.nodes, Coming(x.pending))
  {
    hide Dress, WithComing, Shown, Told, Coming;
  }

  /** With no pass under way the abstraction is the store itself. */
  lemma AbsAtRest(x: Split)
    requires x.pending == map[]
    ensures Abs(x) == x.sys
  {
    var l := LayerOf(x);
    assert l.conditions == map[] && l.traces == map[] && l.coming == {};
    assert Dress(x.sys.hosts, l.conditions) == x.sys.hosts;
    assert WithComing(x.sys.nodes, l.coming) == x.sys.nodes;
  }

  predicate SameKeys<K, V>(keys: set<K>, a: map<K, V>, b: map<K, V>) {
    forall k :: k in keys ==> (k in a <==> k in b)
  }

  /** The same reservation, up to the values of labels and annotations. */
  predicate SameRecord(a: Host, b: Host) {
    && b == a.(labels := b.labels, notes := b.notes, details := b.details)
    && SameKeys(RESERVED_LABELS, a.labels, b.labels) && SameKeys(RESERVED_NOTES, a.notes, b.notes)
  }

  /** What a pending pass may rely on when it commits. Nobody else writes the conditions; while the
      host is marked for cleanup nobody else touches its reservation or its uninstall secret. */
  predicate StillGood(s: System, h: Key, p: Pending) {
    && p.joins == JoinsAs(h, p.base, Mine(p).events)
    && (h in s.hosts ==>
          && s.hosts[h].node == p.base.node && s.hosts[h].components == p.base.components
          && (Late(p) ==> SameRecord(p.base, s.hosts[h]) && ReadsOk(s, p.base, p.outcomes)))
    && (p.acted ==> p.read) && (!p.readable ==> !p.read && Doomed(s, p))
  }

  /** The script that a pass has to read. */
  function Needed(p: Pending): Option<SecretId> {
    if Cleanup in p.base.notes then p.base.uninstallSecret else p.base.installSecret
  }

  /** The pass is to read a script that is gone for good. */
  predicate Doomed(s: System, p: Pending) {
    && Needed(p).Some? && MadeBy(s, Needed(p).value) && Needed(p).value !in s.secrets
    && (if Cleanup in p.base.notes then p.outcomes.readUninstall else p.outcomes.readInstall)
  }

  lemma DoomedNeverReads(s: System, p: Pending)
    requires Doomed(s, p)
    ensures !ReadsOk(s, p.base, p.outcomes)
  {
  }

  ghost predicate Good(x: Split) {
    forall h :: h in x.pending ==> StillGood(x.sys, h, x.pending[h])
  }

  // ---------------------------------------------------------------- commits

  lemma MergedSame<K, V>(base: map<K, V>, current: map<K, V>)
    ensures MergedMap(base, base, current) == current
  {
  }

  /** The patch of an early pass changes the two conditions and nothing else. */
  lemma EarlyPatch(p: Pending, current: Host)
    requires Early(p) && current.node == p.base.node && current.components == p.base.components
    ensures Patched(p.base, Mine(p).host, current) == Recond(current, Conditions(Mine(p).host.node, Mine(p).host.components))
  {
    NormalShape(p.base, p.skip, p.outcomes);
    hide NormalPass, MergedMap;
    MergedSame(p.base.labels, current.labels);
    MergedSame(p.base.notes, current.notes);
  }

  lemma MergedRemoval<K, V>(base: map<K, V>, current: map<K, V>, keys: set<K>)
    requires SameKeys(keys, base, current)
    ensures MergedMap(base, base - keys, current) == current - keys
  {
    var m := MergedMap(base, base - keys, current);
    forall k ensures Get(m, k) == Get(current - keys, k) {
      assert MergedKey(base, base - keys, current, k) == Get(current - keys, k);
    }
    forall k | k in m ensures k in current - keys && m[k] == (current - keys)[k] { assert Get(m, k) == Get(current - keys, k); }
    forall k | k in current - keys ensures k in m { assert Get(m, k) == Get(current - keys, k); }
  }

  /** The patch of a cleanup is what a cleanup of the object as it is now would have written. */
  lemma CleanupPatch(p: Pending, current: Host)
    requires Late(p) && SameRecord(p.base, current)
    ensures AgentPass(current, p.skip, p.outcomes).events == Mine(p).events
    ensures AgentPass(current, p.skip, p.outcomes).host == Patched(p.base, Mine(p).host, current)
  {
    assert Cleanup in RESERVED_NOTES && EndpointIP in RESERVED_NOTES;
    assert Cleanup in current.notes && (EndpointIP in p.base.notes <==> EndpointIP in current.notes);
    var q := CleanupPass(p.base, p.skip, p.outcomes).host;
    CleanupShape(p.base, p.skip, p.outcomes);
    CleanupShape(current, p.skip, p.outcomes);
    CleanupAlike(p.base, current, p.skip, p.outcomes);
    hide CleanupPass, NormalPass, Patched;
    PatchShapes(p.base, current, q.node, q.components);
    hide SameRecord, Released;
  }

  /** The two shapes of a cleanup's patch. */
  lemma PatchShapes(base: Host, current: Host, node: Condition, components: Condition)
    requires SameRecord(base, current)
    ensures Patched(base, base.(node := node, components := components), current) == current.(node := node, components := components)
    ensures Patched(base, Released(base).(node := node, components := components), current) == Released(current).(node := node, components := components)
  {
    hide MergedMap;
    MergedSame(base.labels, current.labels);
    MergedSame(base.notes, current.notes);
    MergedRemoval(base.labels, current.labels, RESERVED_LABELS);
    MergedRemoval(base.notes, current.notes, RESERVED_NOTES);
    hide SameKeys;
  }

  // ---------------------------------------------------------------- the agent's own steps

  lemma ShownPut(pending: map<Key, Pending>, h: Key, p: Pending)
    requires h !in pending
    ensures Shown(pending[h := p]) ==
            if Early(p) && !p.lost then Shown(pending)[h := Conditions(Mine(p).host.node, Mine(p).host.components)] else Shown(pending)
  {
    hide Mine;
  }

  lemma ToldPut(s: System, pending: map<Key, Pending>, h: Key, p: Pending)
    requires h !in pending
    ensures Told(s, pending[h := p]) ==
            if IsTold(s, h, p) then Told(s, pending)[h := Trace(s, h) + Mine(p).events] else Told(s, pending)
  {
    hide Mine, Trace;
  }

  lemma ComingIs(pending: map<Key, Pending>, h: Key, p: Pending)
    requires h !in pending
    ensures Coming(pending[h := p]) == if IsComing(p) then Coming(pending) + {p.joins.value} else Coming(pending)
  {
    var q := pending[h := p];
    forall n | n in Coming(pending) ensures n in Coming(q) {
      var y :| y in pending && IsComing(pending[y]) && pending[y].joins.value == n;
      assert q[y] == pending[y];
    }
    if IsComing(p) { assert q[h] == p; }
  }

  lemma DressAdd(hosts: map<Key, Host>, d: map<Key, Conditions>, h: Key, c: Conditions)
    requires h in hosts && h !in d
    ensures Dress(hosts, d)[h := Recond(hosts[h], c)] == Dress(hosts, d[h := c])
  {
    hide Recond;
  }

  lemma ComingMore(nodes: map<Key, string>, coming: set<Key>, n: Key)
    ensures WithComing(nodes, coming + {n}) ==
            if n in WithComing(nodes, coming) then WithComing(nodes, coming) else WithComing(nodes, coming)[n := ""]
  {
  }

  lemma DressMissing(hosts: map<Key, Host>, d: map<Key, Conditions>, h: Key, c: Conditions)
    requires h !in hosts
    ensures Dress(hosts, d[h := c]) == Dress(hosts, d)
  {
    hide Recond;
  }

  lemma TraceMove(tr: map<Key, seq<Event>>, told: map<Key, seq<Event>>, h: Key, v: seq<Event>)
    requires h !in told
    ensures tr[h := v] + told == (tr + told)[h := v] == tr + told[h := v]
  {
  }

  lemma ToldSame(s: System, t: System, pending: map<Key, Pending>)
    requires forall y :: y in pending ==> Trace(s, y) == Trace(t, y) && (!Late(pending[y]) || (y in s.hosts <==> y in t.hosts))
    ensures Told(s, pending) == Told(t, pending)
  {
    hide Mine;
  }

  /** Where no other pass of the host is under way, the layer leaves the host alone. */
  lemma Undressed(s: System, pending: map<Key, Pending>, h: Key)
    requires h !in pending
    ensures var a := Abs(Split(s, pending));
            && h !in Shown(pending) && h !in Told(s, pending)
            && Trace(a, h) == Trace(s, h) && (h in a.hosts <==> h in s.hosts) && (h in s.hosts ==> a.hosts[h] == s.hosts[h])
  {
    hide Mine;
  }

  lemma JoinedCases(s: System, h: Key, events: seq<Event>)
    requires h in s.hosts
    ensures JoinedNodes(s, h, events) ==
            var j := JoinsAs(h, s.hosts[h], events);
            if j.Some? && j.value !in s.nodes then s.nodes[j.value := ""] else s.nodes
  {
  }

  lemma PutHosts(s: System, q: map<Key, Pending>, h: Key, p: Pending)
    requires h !in q
    ensures Abs(Split(s, q[h := p])).hosts ==
            if Early(p) && !p.lost && h in s.hosts
            then Abs(Split(s, q)).hosts[h := Recond(s.hosts[h], Conditions(Mine(p).host.node, Mine(p).host.components))]
            else Abs(Split(s, q)).hosts
  {
    var c := Conditions(Mine(p).host.node, Mine(p).host.components);
    ShownPut(q, h, p);
    Undressed(s, q, h);
    if h in s.hosts { DressAdd(s.hosts, Shown(q), h, c); } else { DressMissing(s.hosts, Shown(q), h, c); }
    hide Dress, WithComing, Shown, Told, Coming, Recond, Mine;
  }

  lemma PutTrace(s: System, q: map<Key, Pending>, h: Key, p: Pending)
    requires h !in q
    ensures Abs(Split(s, q[h := p])).trace ==
            if IsTold(s, h, p) then Abs(Split(s, q)).trace[h := Trace(s, h) + Mine(p).events] else Abs(Split(s, q)).trace
  {
    Undressed(s, q, h);
    ToldPut(s, q, h, p);
    TraceMove(s.trace, Told(s, q), h, Trace(s, h) + Mine(p).events);
    hide Dress, WithComing, Shown, Told, Coming, Trace, Mine;
  }

  lemma PutNodes(s: System, q: map<Key, Pending>, h: Key, p: Pending)
    requires h !in q
    ensures var nodes := Abs(Split(s, q)).nodes;
            Abs(Split(s, q[h := p])).nodes == if IsComing(p) && p.joins.value !in nodes then nodes[p.joins.value := ""] else nodes
  {
    hide Dress, WithComing, Shown, Told, Coming;
    ComingIs(q, h, p);
    if IsComing(p) { ComingMore(s.nodes, Coming(q), p.joins.value); }
  }

  lemma BeginEarly(s: System, q: map<Key, Pending>, h: Key, p: Pending)
    requires h in s.hosts && h !in q && Early(p) && p.base == s.hosts[h] && !p.acted && p.joins == JoinsAs(h, p.base, Mine(p).events)
    ensures h in Abs(Split(s, q)).hosts
    ensures ApplyAgent(Abs(Split(s, q)), h, p.skip, p.outcomes, p.lost) == Abs(Split(s, q[h := p]))
  {
    var a := Abs(Split(s, q));
    Undressed(s, q, h);
    PutHosts(s, q, h, p);
    PutTrace(s, q, h, p);
    PutNodes(s, q, h, p);
    assert Mine(p).host == Recond(p.base, Conditions(Mine(p).host.node, Mine(p).host.components)) by {
      NormalShape(p.base, p.skip, p.outcomes); hide NormalPass;
    }
    hide AgentPass, JoinsAs, JoinedNodes, Abs, Trace, Recond;
    JoinedCases(a, h, Mine(p).events);
  }

  lemma BeginLate(s: System, q: map<Key, Pending>, h: Key, p: Pending)
    requires h !in q && !Early(p) && (h in s.hosts || !p.readable)
    ensures Abs(Split(s, q[h := p])) == Abs(Split(s, q))
  {
    PutHosts(s, q, h, p);
    PutTrace(s, q, h, p);
    PutNodes(s, q, h, p);
    hide Abs;
  }

  lemma ComingActs(nodes: map<Key, string>, coming: set<Key>, n: Key)
    requires n !in nodes
    ensures WithComing(nodes[n := ""], coming) ==
            if n in WithComing(nodes, coming) then WithComing(nodes, coming) else WithComing(nodes, coming)[n := ""]
  {
  }

  lemma ActNodes(s: System, q: map<Key, Pending>, h: Key, p: Pending)
    requires h !in q && IsComing(p)
    ensures Abs(Split(Acted(s, p), q)).nodes == Abs(Split(s, q[h := p])).nodes
  {
    hide Abs, Dress, WithComing, Shown, Told, Coming;
    PutNodes(s, q, h, p);
    AbsIs(Split(s, q));
    AbsIs(Split(Acted(s, p), q));
    if p.joins.value !in s.nodes { ComingActs(s.nodes, Coming(q), p.joins.value); }
    else { assert p.joins.value in WithComing(s.nodes, Coming(q)) by { ComingNode(s, Layer(map[], map[], Coming(q)), p.joins.value); } }
  }

  lemma AbsHostsTrace(s: System, t: System, q: map<Key, Pending>)
    requires t.hosts == s.hosts && t.trace == s.trace
    ensures Abs(Split(t, q)).hosts == Abs(Split(s, q)).hosts && Abs(Split(t, q)).trace == Abs(Split(s, q)).trace
  {
    ToldSame(s, t, q);
    hide Dress, WithComing, Shown, Told, Coming;
  }

  lemma ActKeeps(s: System, q: map<Key, Pending>, h: Key, p: Pending)
    requires h !in q && !p.acted && (p.joins.Some? ==> Early(p))
    ensures Abs(Split(Acted(s, p), q[h := p.(acted := true)])) == Abs(Split(s, q[h := p]))
  {
    var t, p' := Acted(s, p), p.(acted := true);
    assert Mine(p) == Mine(p') && Trace(s, h) == Trace(t, h);
    hide Abs, Mine, Trace;
    PutHosts(s, q, h, p);
    PutTrace(s, q, h, p);
    PutHosts(t, q, h, p');
    PutTrace(t, q, h, p');
    PutNodes(t, q, h, p');
    AbsHostsTrace(s, t, q);
    if p.joins.Some? { ActNodes(s, q, h, p); } else { PutNodes(s, q, h, p); }
  }

  lemma ReadKeeps(s: System, q: map<Key, Pending>, h: Key, p: Pending)
    requires h !in q
    ensures Abs(Split(s, q[h := p.(read := true)])) == Abs(Split(s, q[h := p]))
  {
    var p' := p.(read := true);
    assert Mine(p) == Mine(p');
    hide Abs, Mine, Trace;
    PutHosts(s, q, h, p);
    PutTrace(s, q, h, p);
    PutNodes(s, q, h, p);
    PutHosts(s, q, h, p');
    PutTrace(s, q, h, p');
    PutNodes(s, q, h, p');
  }

  lemma CommitTrace(s: System, q: map<Key, Pending>, h: Key, p: Pending)
    requires h !in q
    ensures Abs(Split(Committed(s, h, p), q)).trace == Abs(Split(s, q)).trace[h := Trace(s, h) + Mine(p).events]
  {
    hide Abs, Dress, WithComing, Shown, Told, Coming, Mine, Committed;
    Undressed(s, q, h);
    AbsIs(Split(s, q));
    AbsIs(Split(Committed(s, h, p), q));
    var v := Trace(s, h) + Mine(p).events;
    var t := Committed(s, h, p);
    ToldSame(s, t, q);
    TraceMove(s.trace, Told(s, q), h, v);
  }

  lemma CommitHosts(s: System, q: map<Key, Pending>, h: Key, p: Pending)
    requires h !in q
    ensures Abs(Split(Committed(s, h, p), q)).hosts ==
            if h in s.hosts && !p.lost then Abs(Split(s, q)).hosts[h := Patched(p.base, Mine(p).host, s.hosts[h])] else Abs(Split(s, q)).hosts
  {
    hide Abs, Dress, WithComing, Shown, Told, Coming, Mine, Patched;
    Undressed(s, q, h);
    AbsIs(Split(s, q));
    AbsIs(Split(Committed(s, h, p), q));
    if h in s.hosts { DressPut(s.hosts, Shown(q), h, Patched(p.base, Mine(p).host, s.hosts[h])); }
  }

  lemma CommitNodes(s: System, q: map<Key, Pending>, h: Key, p: Pending)
    ensures Abs(Split(Committed(s, h, p), q)).nodes == Abs(Split(s, q)).nodes
  {
    hide Dress, WithComing, Shown, Told, Coming, Mine, Patched;
  }

  /** The patch of an early pass, and the failed patch on a deleted host, change nothing any more. */
  lemma CommitQuiet(s: System, q: map<Key, Pending>, h: Key, p: Pending)
    requires h !in q && p.acted && StillGood(s, h, p) && IsTold(s, h, p)
    ensures Abs(Split(Committed(s, h, p), q)) == Abs(Split(s, q[h := p]))
  {
    if h in s.hosts { EarlyPatch(p, s.hosts[h]); }
    hide Abs, Mine, Patched, Recond;
    PutHosts(s, q, h, p);
    PutTrace(s, q, h, p);
    PutNodes(s, q, h, p);
    CommitTrace(s, q, h, p);
    CommitHosts(s, q, h, p);
    CommitNodes(s, q, h, p);
  }

  lemma CleanupJoinsNothing(host: Host, skip: bool, o: Outcomes)
    ensures !Joins(CleanupPass(host, skip, o).events)
  {
  }

  /** The patch of a cleanup does what an atomic pass does at that moment. */
  lemma CommitLate(s: System, q: map<Key, Pending>, h: Key, p: Pending)
    requires h !in q && StillGood(s, h, p) && Late(p) && h in s.hosts
    ensures var a := Abs(Split(s, q[h := p]));
            && h in a.hosts && ReadsOk(a, a.hosts[h], p.outcomes)
            && ApplyAgent(a, h, p.skip, p.outcomes, p.lost) == Abs(Split(Committed(s, h, p), q))
  {
    assert Cleanup in RESERVED_NOTES;
    var a := Abs(Split(s, q));
    Undressed(s, q, h);
    BeginLate(s, q, h, p);
    CleanupPatch(p, s.hosts[h]);
    CleanupJoinsNothing(s.hosts[h], p.skip, p.outcomes);
    hide Abs, CleanupPass, NormalPass, Patched;
    CommitTrace(s, q, h, p);
    CommitHosts(s, q, h, p);
    CommitNodes(s, q, h, p);
  }
}
