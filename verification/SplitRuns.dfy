/** The agent as it really runs: it fetches the ByoHost at one time, reads its scripts later, runs
    commands later again, and later still sends a patch that holds only the differences between what it fetched and
    what it wants. Steps of everybody else come in between. */
module SplitRuns {
  import opened Objects
  import opened Agent
  import opened Manager
  import opened Protocol

  // ---------------------------------------------------------------- the patch

  function Merged<T(==)>(base: T, mine: T, current: T): T {
    if mine == base then current else mine
  }

  function MergedKey<K, V(==)>(base: map<K, V>, mine: map<K, V>, current: map<K, V>, k: K): Option<V> {
    Merged(Get(base, k), Get(mine, k), Get(current, k))
  }

  /** Keys that were removed are removed, keys that were set are set, all others stay as they are now. */
  function MergedMap<K, V(==)>(base: map<K, V>, mine: map<K, V>, current: map<K, V>): map<K, V> {
    map k | k in current.Keys + mine.Keys && MergedKey(base, mine, current, k).Some? :: MergedKey(base, mine, current, k).value
  }

  /** The deferred patch of the agent, applied to the object as it is now. */
  function Patched(base: Host, mine: Host, current: Host): Host {
    Host(Merged(base.deleting, mine.deleting, current.deleting),
         MergedMap(base.labels, mine.labels, current.labels),
         MergedMap(base.notes, mine.notes, current.notes),
         Merged(base.bootstrapSecret, mine.bootstrapSecret, current.bootstrapSecret),
         Merged(base.installSecret, mine.installSecret, current.installSecret),
         Merged(base.uninstallSecret, mine.uninstallSecret, current.uninstallSecret),
         Merged(base.machineRef, mine.machineRef, current.machineRef),
         Merged(base.node, mine.node, current.node),
         Merged(base.components, mine.components, current.components),
         Merged(base.details, mine.details, current.details))
  }

  // ---------------------------------------------------------------- the steps

  /** A pass that is under way: what it fetched, how its calls will turn out, whether the agent will
      die before the patch, the node its bootstrap will make, whether the reads that will succeed could
      succeed already when it began, whether its scripts have been read, and whether its commands have
      run. */
  datatype Pending = Pending(
    base: Host, skip: bool, outcomes: Outcomes, lost: bool, joins: Option<Key>, readable: bool, read: bool, acted: bool)

  function Mine(p: Pending): Pass {
    AgentPass(p.base, p.skip, p.outcomes)
  }

  datatype Split = Split(sys: System, pending: map<Key, Pending>)

  datatype SplitStep =
    | Begin(h: Key, skip: bool, outcomes: Outcomes, lost: bool)
    | Read(h: Key)
    | Act(h: Key)
    | Commit(h: Key)
    | Other(step: Step)

  /** A script is read after the fetch and before the commands run. The agent's process registers its host
      before it starts to reconcile. */
  ghost predicate SplitEnabled(w: World, x: Split, st: SplitStep) {
    match st
    case Begin(h, _, _, _) => h in x.sys.hosts && h !in x.pending
    case Read(h) => h in x.pending && !x.pending[h].read && ReadsOk(x.sys, x.pending[h].base, x.pending[h].outcomes)
    case Act(h) => h in x.pending && x.pending[h].read && !x.pending[h].acted
    case Commit(h) => h in x.pending && x.pending[h].acted
    case Other(step) => Enabled(w, x.sys, step) && !step.AgentStep? && !(step.Register? && step.h in x.pending)
  }

  /** The node that a bootstrap on the host makes. */
  function JoinsAs(h: Key, host: Host, events: seq<Event>): Option<Key> {
    if Joins(events) && ClusterName in host.labels then Some(Key(host.labels[ClusterName], h.name)) else None
  }

  function Begun(s: System, h: Key, skip: bool, o: Outcomes, lost: bool): Pending
    requires h in s.hosts
  {
    var host := s.hosts[h];
    Pending(host, skip, o, lost, JoinsAs(h, host, AgentPass(host, skip, o).events), ReadsOk(s, host, o), false, false)
  }

  function Acted(s: System, p: Pending): (t: System)
    ensures t == s.(nodes := t.nodes)
  {
    if p.joins.Some? && p.joins.value !in s.nodes then s.(nodes := s.nodes[p.joins.value := ""]) else s
  }

  /** The patch of a pass whose agent died, or whose host is gone, does not arrive. */
  function Committed(s: System, h: Key, p: Pending): (t: System)
    ensures t == s.(hosts := t.hosts, trace := t.trace) && t.trace == s.trace[h := Trace(s, h) + Mine(p).events]
    ensures forall x :: x in t.hosts <==> x in s.hosts
  {
    var s1 := s.(trace := s.trace[h := Trace(s, h) + Mine(p).events]);
    if h in s.hosts && !p.lost then PutHost(s1, h, Patched(p.base, Mine(p).host, s.hosts[h])) else s1
  }

  function SplitApply(w: World, x: Split, st: SplitStep): Split
    requires SplitEnabled(w, x, st)
  {
    match st
    case Begin(h, skip, o, lost) =>
      x.(pending := x.pending[h := Begun(x.sys, h, skip, o, lost)])
    case Read(h) => x.(pending := x.pending[h := x.pending[h].(read := true)])
    case Act(h) => Split(Acted(x.sys, x.pending[h]), x.pending[h := x.pending[h].(acted := true)])
    case Commit(h) => Split(Committed(x.sys, h, x.pending[h]), x.pending - {h})
    case Other(step) => x.(sys := Apply(w, x.sys, step))
  }

  datatype SplitRun = SplitRun(states: seq<Split>, steps: seq<SplitStep>)

  ghost predicate SplitValid(w: World, r: SplitRun) {
    && |r.states| == |r.steps| + 1
    && r.states[0] == Split(EMPTY, map[])
    && forall i :: 0 <= i < |r.steps| ==> SplitNext(w, r, i)
  }

  ghost predicate SplitNext(w: World, r: SplitRun, i: nat)
    requires |r.states| == |r.steps| + 1 && i < |r.steps|
  {
    SplitEnabled(w, r.states[i], r.steps[i]) && r.states[i + 1] == SplitApply(w, r.states[i], r.steps[i])
  }
}
