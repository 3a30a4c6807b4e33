/** The reconciles of the controller manager, as functions on the whole store. Each takes as
    parameters what it observes outside the store and the point at which an API call fails. */
module Manager {
  import opened Objects
  import opened Agent
  import ProviderId

  datatype Scripts = Scripts(install: string, uninstall: string)

  /** What is fixed for a whole run: how a ByoMachine name is turned into a label value, and the
      scripts the installer generates for a config on a platform, if it supports the platform. */
  datatype World = World(tag: Key -> string, scripts: (Key, string) -> Option<Scripts>)

  /** The store, the nodes of the workload clusters (by cluster and node name, with their provider
      ID), and history: the names ever given to ByoMachines, the host each was ever attached to,
      and what the agents ran. `dataSecret` is Machine.Spec.Bootstrap.DataSecretName. */
  datatype System = System(
    hosts: map<Key, Host>,
    machines: map<Key, Machine>,
    configs: map<Key, InstallerConfig>,
    secrets: map<SecretId, Secret>,
    nodes: map<Key, string>,
    dataSecret: map<Key, string>,
    used: set<Key>,
    attachedTo: map<Key, Key>,
    trace: map<Key, seq<Event>>)

  function PutHost(s: System, k: Key, h: Host): (t: System)
    ensures t == s.(hosts := t.hosts)
  {
    s.(hosts := s.hosts[k := h])
  }

  /** A ByoMachine that is being deleted disappears with its last finalizer. */
  function PutMachine(s: System, k: Key, m: Machine): (t: System)
    ensures t == s.(machines := t.machines)
  {
    if m.deleting && !m.finalizer && !m.foreign then s.(machines := s.machines - {k})
    else s.(machines := s.machines[k := m])
  }

  function PutConfig(s: System, k: Key, c: InstallerConfig): (t: System)
    ensures t == s.(configs := t.configs)
  {
    if c.deleting && !c.finalizer then s.(configs := s.configs - {k})
    else s.(configs := s.configs[k := c])
  }

  function Trace(s: System, h: Key): seq<Event> {
    if h in s.trace then s.trace[h] else []
  }

  // ---------------------------------------------------------------- writes to a ByoHost

  function WithPaused(h: Host, paused: bool): Host {
    h.(notes := if paused then h.notes[Paused := ""] else h.notes - {Paused})
  }

  /** The part of a version before its build metadata. */
  function BaseVersion(v: string): string {
    if v == "" || v[0] == '+' then "" else [v[0]] + BaseVersion(v[1..])
  }

  function Reserved(h: Host, k: Key, cluster: string, tag: string, data: string, e: MachineEnv): Host {
    h.(machineRef := Some(k),
       labels := h.labels[ClusterName := cluster][AttachedMachine := tag],
       bootstrapSecret := Some(BootstrapData(k.ns, data)),
       notes := h.notes[EndpointIP := e.endpoint][K8sVersion := BaseVersion(e.version)][BundleRegistry := e.registry])
  }

  function MarkedForCleanup(h: Host, upgrading: bool): Host {
    h.(notes := h.notes[Cleanup := ""],
       labels := if upgrading then h.labels else h.labels - {Pf9Cluster, Pf9ClusterCP})
  }

  // ---------------------------------------------------------------- ByoMachine controller

  /** The API call of a ByoMachine reconcile that fails, if any. */
  datatype Stage = AtUnpause | AtConfig | AtReserve | AtInstall | AtUninstall | AtNode | Complete

  /** What one ByoMachine reconcile observes. `resolvable`: owner Machine, Cluster and ByoCluster
      were found. `fetched`: the host found by label. `pick`: the first host of the list of
      unreserved hosts. `lost`: the deferred patch of the ByoMachine does not arrive. */
  datatype MachineEnv = MachineEnv(
    resolvable: bool, paused: bool, infraReady: bool,
    fetched: Option<Key>, pick: Option<Key>,
    endpoint: string, version: string, registry: string, upgrading: bool, suffix: string,
    stop: Stage, lost: bool)

  function MachinePass(w: World, s: System, k: Key, e: MachineEnv): System
    requires k in s.machines
    requires FetchedOk(w, s, k, e) && PickOk(s, k, e)
  {
    if e.resolvable then WriteBack(s, k, e, PassView(w, s, k, e)) else s
  }

  predicate Carries(w: World, s: System, h: Key, k: Key) {
    && h in s.hosts
    && AttachedMachine in s.hosts[h].labels
    && s.hosts[h].labels[AttachedMachine] == w.tag(k)
  }

  /** The lookup by label goes over all namespaces. */
  ghost predicate FetchedOk(w: World, s: System, k: Key, e: MachineEnv) {
    match e.fetched
    case Some(h) => Carries(w, s, h, k)
    case None => forall h :: h in s.hosts ==> !Carries(w, s, h, k)
  }

  /** The list of candidates is confined to the machine's namespace. The machine's own selector
      may rule out any of them. */
  predicate PickOk(s: System, k: Key, e: MachineEnv) {
    e.pick.Some? ==>
      && e.pick.value in s.hosts
      && e.pick.value.ns == k.ns
      && ClusterName !in s.hosts[e.pick.value].labels
  }

  /** What a reconcile leaves: the machine's host as last patched, if it was patched, the ByoMachine
      in memory, the installer config as stored, the provider ID of the node, and whether the
      reconcile has returned with an error or early. All host patches of a reconcile go to one
      host, so the last one stands for all. */
  datatype View = View(host: Option<Host>, m: Machine, config: Option<InstallerConfig>, node: Option<string>, done: bool)

  /** The host a reconcile works on, if it works on any. */
  function Target(e: MachineEnv): Option<Key> {
    if e.fetched.Some? then e.fetched else e.pick
  }

  function Get<K, V>(m: map<K, V>, k: K): Option<V> {
    if k in m then Some(m[k]) else None
  }

  function NodeKey(m: Machine, e: MachineEnv): Key {
    Key(m.cluster, if Target(e).Some? then Target(e).value.name else "")
  }

  function StartView(s: System, k: Key, e: MachineEnv): View
    requires k in s.machines
    requires e.fetched.Some? ==> e.fetched.value in s.hosts
  {
    View(if e.fetched.Some? then Some(s.hosts[e.fetched.value]) else None,
         s.machines[k].(finalizer := true), Get(s.configs, k), Get(s.nodes, NodeKey(s.machines[k], e)), false)
  }

  /** The view of a normal reconcile just before it looks at the node. */
  function HandedOver(w: World, s: System, k: Key, e: MachineEnv): View
    requires k in s.machines
    requires e.fetched.Some? ==> e.fetched.value in s.hosts
    requires e.pick.Some? ==> e.pick.value in s.hosts
  {
    var spare := if e.pick.Some? then Some(s.hosts[e.pick.value]) else None;
    var v := Reserve(w, EnsureConfig(Unpause(StartView(s, k, e), e), e), k, Get(s.dataSecret, k), spare, e);
    GiveUninstall(GiveInstall(NoteInfo(v), e), e)
  }

  function NormalView(w: World, s: System, k: Key, e: MachineEnv): View
    requires k in s.machines
    requires e.fetched.Some? ==> e.fetched.value in s.hosts
    requires e.pick.Some? ==> e.pick.value in s.hosts
  {
    UpdateNode(HandedOver(w, s, k, e), NodeKey(s.machines[k], e).name, e)
  }

  function PassView(w: World, s: System, k: Key, e: MachineEnv): View
    requires k in s.machines
    requires e.fetched.Some? ==> e.fetched.value in s.hosts
    requires e.pick.Some? ==> e.pick.value in s.hosts
  {
    if e.paused then PausedView(s, k, e)
    else if s.machines[k].deleting then DeleteView(s, k, e)
    else NormalView(w, s, k, e)
  }

  /** A paused reconcile passes the pause on to the host; failing to do so is only logged. */
  function PausedView(s: System, k: Key, e: MachineEnv): View
    requires k in s.machines
    requires e.fetched.Some? ==> e.fetched.value in s.hosts
  {
    View(if e.fetched.Some? && e.stop != AtUnpause then Some(WithPaused(s.hosts[e.fetched.value], true)) else None,
         s.machines[k].(status := NotReady(ResourcePaused)), None, None, true)
  }

  /** The finalizer goes only after the machine's host, if it has one, is marked for cleanup. */
  function DeleteView(s: System, k: Key, e: MachineEnv): View
    requires k in s.machines
    requires e.fetched.Some? ==> e.fetched.value in s.hosts
  {
    if e.fetched.None? then
      View(None, s.machines[k].(finalizer := false), None, None, false)
    else if e.stop != Complete then
      View(None, s.machines[k], None, None, true)
    else
      View(Some(MarkedForCleanup(s.hosts[e.fetched.value], e.upgrading)), s.machines[k].(finalizer := false), None, None, false)
  }

  function WriteBack(s: System, k: Key, e: MachineEnv, v: View): System {
    var t := WriteRest(WriteHost(s, k, e, v), k, e, v);
    if e.lost then t else PutMachine(t, k, v.m)
  }

  /** The host patches; a host that was not found by label is newly attached. */
  function WriteHost(s: System, k: Key, e: MachineEnv, v: View): (t: System)
    ensures t == s.(hosts := t.hosts, attachedTo := t.attachedTo)
  {
    if v.host.None? || Target(e).None? then s
    else if e.fetched.Some? then PutHost(s, e.fetched.value, v.host.value)
    else PutHost(s, e.pick.value, v.host.value).(attachedTo := s.attachedTo[k := e.pick.value])
  }

  function WriteRest(s: System, k: Key, e: MachineEnv, v: View): (t: System)
    ensures t == s.(configs := t.configs, nodes := t.nodes)
  {
    s.(configs := if v.config.Some? && k !in s.configs then s.configs[k := v.config.value] else s.configs,
       nodes := if v.node.Some? then s.nodes[NodeKey(v.m, e) := v.node.value] else s.nodes)
  }

  function Unpause(v: View, e: MachineEnv): (r: View)
    ensures r == v.(host := r.host, done := r.done) && (r.host.Some? <==> v.host.Some?)
  {
    if v.host.None? then v
    else if e.stop == AtUnpause then v.(done := true)
    else v.(host := Some(WithPaused(v.host.value, false)))
  }

  function EnsureConfig(v: View, e: MachineEnv): (r: View)
    ensures r == v.(config := r.config, done := r.done)
    ensures r.config == v.config || (v.config.None? && r.config == Some(NEW_CONFIG))
  {
    if v.done || !v.m.installer then v
    else if e.stop == AtConfig then v.(done := true)
    else if v.config.Some? then v
    else v.(config := Some(NEW_CONFIG))
  }

  /** Two gates, and then the reservation of the first free host if the machine has none. */
  function Reserve(w: World, v: View, k: Key, data: Option<string>, spare: Option<Host>, e: MachineEnv): (r: View)
    ensures r == v.(host := r.host, m := v.m.(status := r.m.status), done := r.done)
    ensures v.host.Some? || v.done ==> r.host == v.host
    ensures r.host.None? ==> r.done
  {
    if v.done then v
    else if !e.infraReady then v.(m := v.m.(status := NotReady(WaitingForClusterInfrastructure)), done := true)
    else if data.None? then v.(m := v.m.(status := NotReady(WaitingForBootstrapData)), done := true)
    else if v.host.Some? then v
    else if e.stop == AtReserve then v.(done := true)
    else if spare.None? then v.(m := v.m.(status := NotReady(HostsUnavailable)), done := true)
    else v.(host := Some(Reserved(spare.value, k, v.m.cluster, w.tag(k), data.value, e)),
            m := v.m.(status := NotReady(InstallationSecretNotAvailable)))
  }

  function NoteInfo(v: View): (r: View)
    ensures r == v.(m := v.m.(hostInfo := r.m.hostInfo)) && (v.m.hostInfo != "" ==> r == v)
  {
    if v.done || v.host.None? || v.m.hostInfo != "" then v
    else v.(m := v.m.(hostInfo := v.host.value.details))
  }

  predicate ConfigReady(v: View) {
    v.config.Some? && v.config.value.ready
  }

  function GiveInstall(v: View, e: MachineEnv): (r: View)
    ensures r == v.(host := r.host, done := r.done) && (r.host.Some? <==> v.host.Some?)
  {
    if v.done || v.host.None? || !v.m.installer || v.host.value.installSecret.Some? then v
    else if e.stop == AtInstall || !ConfigReady(v) || v.config.value.install.None? then v.(done := true)
    else v.(host := Some(v.host.value.(installSecret := v.config.value.install)))
  }

  function GiveUninstall(v: View, e: MachineEnv): (r: View)
    ensures r == v.(host := r.host, done := r.done) && (r.host.Some? <==> v.host.Some?)
  {
    if v.done || v.host.None? || !v.m.installer || v.host.value.uninstallSecret.Some? then v
    else if e.stop == AtUninstall || !ConfigReady(v) || v.config.value.uninstall.None? then v.(done := true)
    else v.(host := Some(v.host.value.(uninstallSecret := v.config.value.uninstall)))
  }

  function UpdateNode(v: View, name: string, e: MachineEnv): (r: View)
    ensures r == v.(m := r.m, node := r.node, done := r.done) && (r.node.Some? <==> v.node.Some?)
    ensures r.m == v.m.(status := r.m.status, ready := r.m.ready, providerID := r.m.providerID)
  {
    if v.done || v.host.None? then v
    else if e.stop == AtNode || v.node.None? then v.(done := true)
    else match ProviderId.SetNodeProviderID(name, v.node.value, e.suffix)
      case None => v.(done := true)
      case Some(id) => v.(node := Some(id), m := v.m.(providerID := id, ready := true, status := HostReady))
  }

  // ---------------------------------------------------------------- ByoHost controller

  /** Collect the uninstall secret of a host that is free again; `cut` says that the reconcile
      stops between deleting the secret and clearing the reference. */
  function HostPass(s: System, h: Key, cut: bool): (t: System)
    requires h in s.hosts
    ensures t == s.(hosts := t.hosts, secrets := t.secrets)
    ensures t.hosts == if Collects(s.hosts[h]) && !cut then s.hosts[h := s.hosts[h].(uninstallSecret := None)] else s.hosts
  {
    if !Collects(s.hosts[h]) then s
    else
      var s1 := s.(secrets := s.secrets - {s.hosts[h].uninstallSecret.value});
      if cut then s1 else PutHost(s1, h, s.hosts[h].(uninstallSecret := None))
  }

  predicate Collects(host: Host) {
    host.uninstallSecret.Some? && host.machineRef.None? && Cleanup !in host.notes
  }

  // ---------------------------------------------------------------- K8sInstallerConfig controller

  datatype ConfigStop = BeforeInstall | BeforeUninstall | Stored

  /** `blocked`: the cluster was not found or is paused. `stop`: the secret write that fails.
      `lost`: the deferred patch of the config does not arrive. */
  function ConfigPass(w: World, s: System, k: Key, blocked: bool, stop: ConfigStop, lost: bool): (t: System)
    ensures t == s.(configs := t.configs, secrets := t.secrets)
  {
    if k !in s.configs then s
    else
      var r := ConfigWork(w, s, k, blocked, stop);
      if lost then r.0 else PutConfig(r.0, k, r.1)
  }

  /** The store, and the config in memory, when the reconcile returns. */
  function ConfigWork(w: World, s: System, k: Key, blocked: bool, stop: ConfigStop): (r: (System, InstallerConfig))
    requires k in s.configs
    ensures r.0 == s.(secrets := r.0.secrets)
  {
    var c := s.configs[k];
    if c.deleting then (s, c.(finalizer := false))
    else if k !in s.machines || blocked || c.ready || s.machines[k].status != NotReady(InstallationSecretNotAvailable)
            || w.scripts(k, s.machines[k].hostInfo).None? then
      (s, c.(finalizer := true))
    else
      StoreScripts(s, k, c.(finalizer := true), w.scripts(k, s.machines[k].hostInfo).value, stop)
  }

  /** Store the two secrets in turn; the config in memory becomes ready when both are stored. */
  function StoreScripts(s: System, k: Key, c: InstallerConfig, sc: Scripts, stop: ConfigStop): (r: (System, InstallerConfig))
    ensures r.0 == s.(secrets := r.0.secrets) && r.1 == c.(install := r.1.install, uninstall := r.1.uninstall, ready := r.1.ready)
    ensures c.ready ==> r.1.ready
  {
    if stop == BeforeInstall then (s, c)
    else
      var s1 := s.(secrets := s.secrets[InstallOf(k) := Secret(Some(k), Install(sc.install))]);
      var c1 := c.(install := Some(InstallOf(k)));
      if stop == BeforeUninstall then (s1, c1)
      else (s1.(secrets := s1.secrets[UninstallOf(k) := Secret(None, Uninstall(sc.uninstall))]),
            c1.(uninstall := Some(UninstallOf(k)), ready := true))
  }

  // ---------------------------------------------------------------- ByoHost webhook

  datatype Lookup = Found | NotFound | LookupFailed

  /** May this ByoHost be deleted, given what the lookup of its machine in the host's own
      namespace returned? */
  predicate DeleteAllowed(host: Host, lookup: Lookup) {
    host.machineRef.Some? ==> lookup.NotFound?
  }
}
