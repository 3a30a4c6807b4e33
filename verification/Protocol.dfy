/** The whole protocol: every controller's reconcile, and what users, the garbage collector and
    the bootstrap provider may do, as steps of one transition system. */
module Protocol {
  import opened Objects
  import opened Agent
  import opened Manager
  import ProviderId

  datatype Step =
    // agent start-up: create the ByoHost, or refresh the details of an existing one
    | Register(h: Key, labels: map<Label, string>, details: string)
    // anybody edits metadata of a ByoHost outside the reserved keys
    | EditHost(h: Key, labels: map<Label, string>, notes: map<Note, string>)
    // deletion of a ByoHost that the webhook admits
    | DeleteHost(h: Key)
    | CreateMachine(k: Key, cluster: string, installer: bool, foreign: bool)
    | DeleteMachine(k: Key)
    // other components drop their finalizers
    | DropForeign(k: Key)
    // the bootstrap provider publishes the name of the data secret
    | ProvideData(k: Key, name: string)
    // garbage collection by owner reference
    | CollectConfig(k: Key)
    | CollectSecret(id: SecretId)
    | MachineStep(k: Key, env: MachineEnv)
    | HostStep(h: Key, cut: bool)
    | ConfigStep(k: Key, blocked: bool, stop: ConfigStop, lostConfig: bool)
    // `lost`: the agent dies before its deferred patch
    | AgentStep(h: Key, skip: bool, outcomes: Outcomes, lost: bool)

  predicate Agree<K>(keys: set<K>, a: map<K, string>, b: map<K, string>) {
    forall x :: x in keys ==> (x in a <==> x in b) && (x in a ==> a[x] == b[x])
  }

  /** A successful read of a script needs a secret with the right key. */
  predicate ReadsOk(s: System, host: Host, o: Outcomes) {
    if Cleanup in host.notes then
      o.readUninstall && host.uninstallSecret.Some? ==>
        host.uninstallSecret.value in s.secrets && s.secrets[host.uninstallSecret.value].payload.Uninstall?
    else
      o.readInstall && host.installSecret.Some? ==>
        host.installSecret.value in s.secrets && s.secrets[host.installSecret.value].payload.Install?
  }

  /** What the webhook's lookup returns when the API answers. */
  function LookupMachine(s: System, h: Key): Lookup
    requires h in s.hosts
  {
    if s.hosts[h].machineRef.Some? && Key(h.ns, s.hosts[h].machineRef.value.name) in s.machines then Found else NotFound
  }

  /** No machine in the store, and none that a host still names, has the label value of `k`. */
  ghost predicate TagFree(w: World, s: System, k: Key) {
    && (forall x :: x in s.machines ==> w.tag(x) != w.tag(k))
    && (forall h :: h in s.hosts && s.hosts[h].machineRef.Some? ==> w.tag(s.hosts[h].machineRef.value) != w.tag(k))
  }

  ghost predicate Enabled(w: World, s: System, step: Step) {
    match step
    case Register(h, labels, _) => ProviderId.LegalName(h.name) && labels.Keys !! RESERVED_LABELS
    case EditHost(h, labels, notes) => h in s.hosts && Agree(RESERVED_LABELS, s.hosts[h].labels, labels) && Agree(RESERVED_NOTES, s.hosts[h].notes, notes)
    case DeleteHost(h) => h in s.hosts && DeleteAllowed(s.hosts[h], LookupMachine(s, h))
    case CreateMachine(k, _, _, _) => k !in s.used && TagFree(w, s, k)
    case DeleteMachine(k) => k in s.machines
    case DropForeign(k) => k in s.machines
    case ProvideData(k, _) => k !in s.dataSecret
    case CollectConfig(k) => k in s.configs && k !in s.machines
    case CollectSecret(id) => id in s.secrets && s.secrets[id].owner.Some? && s.secrets[id].owner.value !in s.configs
    case MachineStep(k, env) =>
      k in s.machines && FetchedOk(w, s, k, env) && PickOk(s, k, env) && ProviderId.LegalSuffix(env.suffix)
    case HostStep(h, _) => h in s.hosts
    case ConfigStep(k, _, _, _) => true
    case AgentStep(h, _, o, _) => h in s.hosts && ReadsOk(s, s.hosts[h], o)
  }

  function Apply(w: World, s: System, step: Step): System
    requires Enabled(w, s, step)
  {
    match step
    case Register(h, labels, details) =>
      PutHost(s, h, if h in s.hosts then s.hosts[h].(details := details) else FreshHost(labels, details))
    case EditHost(h, labels, notes) => PutHost(s, h, s.hosts[h].(labels := labels, notes := notes))
    case DeleteHost(h) => s.(hosts := s.hosts - {h})
    case CreateMachine(k, cluster, installer, foreign) =>
      s.(machines := s.machines[k := NewMachine(cluster, installer, foreign)], used := s.used + {k})
    case DeleteMachine(k) => PutMachine(s, k, s.machines[k].(deleting := true))
    case DropForeign(k) => PutMachine(s, k, s.machines[k].(foreign := false))
    case ProvideData(k, name) => s.(dataSecret := s.dataSecret[k := name])
    case CollectConfig(k) => PutConfig(s, k, s.configs[k].(deleting := true))
    case CollectSecret(id) => s.(secrets := s.secrets - {id})
    case MachineStep(k, env) => MachinePass(w, s, k, env)
    case HostStep(h, cut) => HostPass(s, h, cut)
    case ConfigStep(k, blocked, stop, lost) => ConfigPass(w, s, k, blocked, stop, lost)
    case AgentStep(h, skip, o, lost) => ApplyAgent(s, h, skip, o, lost)
  }

  /** What the step of a controller is. */
  lemma PassApplies(w: World, s: System, step: Step)
    requires Enabled(w, s, step)
    ensures step.MachineStep? ==>
              && step.k in s.machines && FetchedOk(w, s, step.k, step.env) && PickOk(s, step.k, step.env)
              && ProviderId.LegalSuffix(step.env.suffix) && Apply(w, s, step) == MachinePass(w, s, step.k, step.env)
    ensures step.HostStep? ==> step.h in s.hosts && Apply(w, s, step) == HostPass(s, step.h, step.cut)
    ensures step.ConfigStep? ==> Apply(w, s, step) == ConfigPass(w, s, step.k, step.blocked, step.stop, step.lostConfig)
    ensures step.AgentStep? ==>
              && step.h in s.hosts && ReadsOk(s, s.hosts[step.h], step.outcomes)
              && Apply(w, s, step) == ApplyAgent(s, step.h, step.skip, step.outcomes, step.lost)
  {
    hide MachinePass, HostPass, ConfigPass, ApplyAgent, FetchedOk, PickOk, ReadsOk;
  }

  function ApplyAgent(s: System, h: Key, skip: bool, o: Outcomes, lost: bool): (t: System)
    requires h in s.hosts
    ensures t == s.(hosts := t.hosts, trace := t.trace, nodes := t.nodes)
    ensures t.hosts == if lost then s.hosts else s.hosts[h := AgentPass(s.hosts[h], skip, o).host]
  {
    var p := AgentPass(s.hosts[h], skip, o);
    var s1 := Record(s, h, p.events);
    if lost then s1 else PutHost(s1, h, p.host)
  }

  /** The physical effects of a pass: the trace grows, and a successful bootstrap makes a node. */
  function Record(s: System, h: Key, events: seq<Event>): System
    requires h in s.hosts
  {
    s.(trace := s.trace[h := Trace(s, h) + events], nodes := JoinedNodes(s, h, events))
  }

  function JoinedNodes(s: System, h: Key, events: seq<Event>): map<Key, string>
    requires h in s.hosts
  {
    if Joins(events) && ClusterName in s.hosts[h].labels then
      var n := Key(s.hosts[h].labels[ClusterName], h.name);
      if n in s.nodes then s.nodes else s.nodes[n := ""]
    else s.nodes
  }

  /** A successful bootstrap is the last event of its pass. */
  predicate Joins(events: seq<Event>) {
    |events| > 0 && events[|events| - 1].BootstrapRun? && events[|events| - 1].ok
  }

  const EMPTY := System(map[], map[], map[], map[], map[], map[], {}, map[], map[])

  // ---------------------------------------------------------------- runs

  datatype Run = Run(states: seq<System>, steps: seq<Step>)

  ghost predicate Valid(w: World, r: Run) {
    && |r.states| == |r.steps| + 1
    && r.states[0] == EMPTY
    && forall i :: 0 <= i < |r.steps| ==> Next(w, r, i)
  }

  ghost predicate Next(w: World, r: Run, i: nat)
    requires |r.states| == |r.steps| + 1 && i < |r.steps|
  {
    Enabled(w, r.states[i], r.steps[i]) && r.states[i + 1] == Apply(w, r.states[i], r.steps[i])
  }
}
