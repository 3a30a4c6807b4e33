/** The invariant of the reservation protocol. It survives every fault: a reconcile of the manager
    or of the agent may stop at any API call, any number of times. */
module Reservation {
  import opened Objects
  import opened Agent
  import opened Manager
  import opened Protocol
  import opened Effects
  import ProviderId

  predicate Live(s: System, k: Key) {
    k in s.machines && !s.machines[k].deleting
  }

  /** All parts of a reservation are absent, and nothing is recorded as installed or joined. */
  predicate Unreserved(host: Host) {
    && host.machineRef.None?
    && host.bootstrapSecret.None? && host.installSecret.None?
    && host.labels.Keys !! RESERVED_LABELS
    && host.notes.Keys !! RESERVED_NOTES
    && !host.node.IsTrue? && !host.components.IsTrue?
  }

  /** All parts of a reservation by machine `m` are present and name `m`. */
  predicate ReservedBy(w: World, s: System, h: Key, host: Host, m: Key) {
    && host.machineRef == Some(m)
    && m in s.attachedTo && s.attachedTo[m] == h
    && m.ns == h.ns
    && m in s.dataSecret && host.bootstrapSecret == Some(BootstrapData(m.ns, s.dataSecret[m]))
    && host.labels.Keys >= RESERVED_LABELS && host.labels[AttachedMachine] == w.tag(m)
    && host.notes.Keys >= {EndpointIP, K8sVersion, BundleRegistry}
    && (host.installSecret.Some? ==> host.installSecret.value == InstallOf(m))
  }

  /** What holds of a host `host` stored under `h`. An uninstall secret is named only if it was
      made for a machine that this host once had. */
  predicate HostOk(w: World, s: System, h: Key, host: Host) {
    && ProviderId.LegalName(h.name)
    && !host.deleting
    && (Unreserved(host) || (host.machineRef.Some? && ReservedBy(w, s, h, host, host.machineRef.value)))
    && (host.uninstallSecret.Some? ==> Owned(s, h, host.uninstallSecret.value))
  }

  predicate Owned(s: System, h: Key, id: SecretId) {
    id.UninstallOf? && id.config in s.attachedTo && s.attachedTo[id.config] == h
  }

  /** A machine that is not being deleted keeps the host it was attached to. */
  predicate Held(s: System, k: Key)
    requires k in s.attachedTo
  {
    var h := s.attachedTo[k];
    h in s.hosts && s.hosts[h].machineRef == Some(k) && Cleanup !in s.hosts[h].notes
  }

  /** A config names no secret but its own two; if it is ready while its machine is live, both are
      stored and hold the scripts generated for the machine's platform. */
  predicate ConfigOk(w: World, s: System, k: Key, c: InstallerConfig) {
    && k in s.used
    && (c.deleting ==> k !in s.machines)
    && (c.install.Some? ==> c.install.value == InstallOf(k))
    && (c.uninstall.Some? ==> c.uninstall.value == UninstallOf(k))
    && (c.ready ==> c.install.Some? && c.uninstall.Some?)
    && (c.ready && Live(s, k) ==> Stocked(w, s, k))
  }

  predicate Stocked(w: World, s: System, k: Key)
    requires k in s.machines
  {
    var sc := w.scripts(k, s.machines[k].hostInfo);
    && sc.Some?
    && InstallOf(k) in s.secrets && s.secrets[InstallOf(k)].payload == Install(sc.value.install)
    && UninstallOf(k) in s.secrets && s.secrets[UninstallOf(k)].payload == Uninstall(sc.value.uninstall)
  }

  /** Install secrets belong to their config, uninstall secrets to nobody. */
  predicate SecretOk(id: SecretId, x: Secret) {
    match id
    case BootstrapData(_, _) => true
    case InstallOf(k) => x.owner == Some(k) && x.payload.Install?
    case UninstallOf(k) => x.owner.None? && x.payload.Uninstall?
  }

  ghost predicate Distinct(w: World, names: set<Key>) {
    forall a, b :: a in names && b in names && w.tag(a) == w.tag(b) ==> a == b
  }

  /** A machine in the store that shares its label value with the one a host names is that one. */
  predicate NoClash(w: World, ref: Option<Key>, k: Key) {
    ref.Some? && w.tag(ref.value) == w.tag(k) ==> ref.value == k
  }

  ghost predicate Inv(w: World, s: System) {
    && s.machines.Keys <= s.used && s.attachedTo.Keys <= s.used
    && Distinct(w, s.machines.Keys)
    && (forall h, k :: h in s.hosts && k in s.machines ==> NoClash(w, s.hosts[h].machineRef, k))
    && (forall h :: h in s.hosts ==> HostOk(w, s, h, s.hosts[h]))
    && (forall k :: Live(s, k) && k in s.attachedTo ==> Held(s, k))
    && (forall k :: k in s.configs ==> ConfigOk(w, s, k, s.configs[k]))
    && (forall id :: id in s.secrets ==> SecretOk(id, s.secrets[id]))
  }

  /** The installer supports no unknown platform. */
  ghost predicate Sound(w: World) {
    forall k :: w.scripts(k, "").None?
  }

  // ---------------------------------------------------------------- single writes

  /** What the invariant says of configs does not depend on hosts. */
  lemma ConfigsStay(w: World, s: System, t: System)
    requires Inv(w, s) && t == s.(hosts := t.hosts, attachedTo := t.attachedTo, trace := t.trace, nodes := t.nodes)
    ensures forall k :: k in t.configs ==> ConfigOk(w, t, k, t.configs[k])
  {
    forall x | x in t.configs ensures ConfigOk(w, t, x, t.configs[x]) { assert ConfigOk(w, s, x, s.configs[x]); }
  }

  /** One host is written, and attachments may be added. */
  predicate HostWritten(s: System, t: System, h: Key, host: Host) {
    && t == s.(hosts := s.hosts[h := host], attachedTo := t.attachedTo)
    && forall k :: k in s.attachedTo ==> k in t.attachedTo && t.attachedTo[k] == s.attachedTo[k]
  }

  /** What it says of hosts survives one write of a well formed host. */
  lemma HostsStay(w: World, s: System, t: System, h: Key, host: Host)
    requires Inv(w, s) && HostWritten(s, t, h, host) && HostOk(w, t, h, host)
    ensures forall x :: x in t.hosts ==> HostOk(w, t, x, t.hosts[x])
  {
    forall x | x in t.hosts ensures HostOk(w, t, x, t.hosts[x]) { assert x == h || HostOk(w, s, x, s.hosts[x]); }
    hide Inv;
  }

  lemma HostWriteKeeps(w: World, s: System, t: System, h: Key, host: Host)
    requires Inv(w, s) && HostWritten(s, t, h, host) && HostOk(w, t, h, host) && t.attachedTo.Keys <= t.used
    requires forall k :: k in t.machines ==> NoClash(w, host.machineRef, k)
    requires forall k :: Live(t, k) && k in t.attachedTo ==> Held(t, k)
    ensures Inv(w, t)
  {
    hide HostOk, ConfigOk, SecretOk, Held, NoClash;
    HostsStay(w, s, t, h, host);
    ConfigsStay(w, s, t);
  }

  /** A host may be rewritten if the result is well formed and a live machine's host stays its own. */
  lemma HostWrite(w: World, s: System, h: Key, host: Host)
    requires Inv(w, s) && h in s.hosts && HostOk(w, s, h, host)
    requires host.machineRef.Some? ==> host.machineRef == s.hosts[h].machineRef
    requires s.hosts[h].machineRef.Some? && Live(s, s.hosts[h].machineRef.value) ==>
               host.machineRef == s.hosts[h].machineRef && Cleanup !in host.notes
    ensures Inv(w, PutHost(s, h, host))
  {
    var t := PutHost(s, h, host);
    assert HostOk(w, t, h, host);
    assert forall k :: k in s.machines ==> NoClash(w, s.hosts[h].machineRef, k);
    forall k | Live(t, k) && k in t.attachedTo ensures Held(t, k) { assert Held(s, k); }
    hide Inv, HostOk;
    HostWriteKeeps(w, s, t, h, host);
  }

  /** A machine may be rewritten if it does not come back to life and its platform is written once. */
  lemma MachineWrite(w: World, s: System, k: Key, m: Machine)
    requires Sound(w) && Inv(w, s) && k in s.machines
    requires s.machines[k].deleting ==> m.deleting
    requires s.machines[k].hostInfo != "" ==> m.hostInfo == s.machines[k].hostInfo
    ensures Inv(w, PutMachine(s, k, m))
  {
    var t := PutMachine(s, k, m);
    forall x | Live(t, x) && x in t.attachedTo ensures Held(t, x) { assert Live(s, x) && Held(s, x); }
    forall x | x in t.hosts ensures HostOk(w, t, x, t.hosts[x]) { assert HostOk(w, s, x, s.hosts[x]); }
    forall x | x in t.configs ensures ConfigOk(w, t, x, t.configs[x]) { assert ConfigOk(w, s, x, s.configs[x]); }
  }

  lemma ConfigWrite(w: World, s: System, k: Key, c: InstallerConfig)
    requires Inv(w, s) && ConfigOk(w, s, k, c)
    ensures Inv(w, PutConfig(s, k, c))
  {
    var t := PutConfig(s, k, c);
    forall x | x in t.configs ensures ConfigOk(w, t, x, t.configs[x]) { assert x == k || ConfigOk(w, s, x, s.configs[x]); }
    forall x | x in t.hosts ensures HostOk(w, t, x, t.hosts[x]) { assert HostOk(w, s, x, s.hosts[x]); }
    forall x | Live(t, x) && x in t.attachedTo ensures Held(t, x) { assert Held(s, x); }
  }

  /** The invariant does not speak of nodes or of the trace. */
  lemma Unseen(w: World, s: System, nodes: map<Key, string>, trace: map<Key, seq<Event>>)
    requires Inv(w, s)
    ensures Inv(w, s.(nodes := nodes, trace := trace))
  {
    var t := s.(nodes := nodes, trace := trace);
    forall x | x in t.configs ensures ConfigOk(w, t, x, t.configs[x]) { assert ConfigOk(w, s, x, s.configs[x]); }
    forall x | x in t.hosts ensures HostOk(w, t, x, t.hosts[x]) { assert HostOk(w, s, x, s.hosts[x]); }
    forall x | Live(t, x) && x in t.attachedTo ensures Held(t, x) { assert Held(s, x); }
  }

  /** The lookup by label returns the host that the machine is attached to, and no other. */
  lemma LabelLookup(w: World, s: System, h: Key, k: Key)
    requires Inv(w, s) && k in s.machines
    ensures Carries(w, s, h, k) <==> h in s.hosts && s.hosts[h].machineRef == Some(k)
  {
    if h in s.hosts {
      assert HostOk(w, s, h, s.hosts[h]);
      assert NoClash(w, s.hosts[h].machineRef, k);
    }
  }

  /** A live machine that the lookup finds no host for was never attached to one. */
  lemma NotFoundIsUnattached(w: World, s: System, k: Key, e: MachineEnv)
    requires Inv(w, s) && Live(s, k) && FetchedOk(w, s, k, e) && e.fetched.None?
    ensures k !in s.attachedTo
  {
    if k in s.attachedTo {
      assert Held(s, k);
      LabelLookup(w, s, s.attachedTo[k], k);
    }
  }

  /** What the observations of a reconcile mean: a fetched host is the machine's own, a host
      offered for reservation is free, and a live machine without a host never had one. */
  lemma Observations(w: World, s: System, k: Key, e: MachineEnv)
    requires Inv(w, s) && k in s.machines && FetchedOk(w, s, k, e) && PickOk(s, k, e)
    ensures e.fetched.Some? ==> s.hosts[e.fetched.value].machineRef == Some(k)
    ensures e.pick.Some? ==> Unreserved(s.hosts[e.pick.value])
    ensures Live(s, k) && e.fetched.None? ==> k !in s.attachedTo
  {
    if e.fetched.Some? { LabelLookup(w, s, e.fetched.value, k); }
    if e.pick.Some? { assert HostOk(w, s, e.pick.value, s.hosts[e.pick.value]); }
    if Live(s, k) && e.fetched.None? { NotFoundIsUnattached(w, s, k, e); }
  }

  /** Reserving an unreserved host for a machine that was never attached. */
  lemma ReserveWrite(w: World, s: System, k: Key, h: Key, host: Host)
    requires Inv(w, s) && k in s.machines && k !in s.attachedTo
    requires h in s.hosts && s.hosts[h].machineRef.None?
    requires Cleanup !in host.notes
    requires var t := s.(attachedTo := s.attachedTo[k := h]); HostOk(w, t, h, host) && host.machineRef == Some(k)
    ensures Inv(w, PutHost(s, h, host).(attachedTo := s.attachedTo[k := h]))
  {
    var t := PutHost(s, h, host).(attachedTo := s.attachedTo[k := h]);
    assert HostOk(w, t, h, host);
    forall x | Live(t, x) && x in t.attachedTo ensures Held(t, x) { assert x == k || Held(s, x); }
    assert Distinct(w, s.machines.Keys) && t.attachedTo.Keys <= t.used;
    hide Inv, HostOk;
    HostWriteKeeps(w, s, t, h, host);
  }

  // ---------------------------------------------------------------- ByoMachine reconciles

  /** Secrets handed over by the machine's own config leave its host well formed. */
  lemma HandedOk(w: World, s: System, h: Key, k: Key, b: Host, x: Host)
    requires HostOk(w, s, h, b) && b.machineRef == Some(k)
    requires x == b.(installSecret := x.installSecret, uninstallSecret := x.uninstallSecret)
    requires x.installSecret == b.installSecret || x.installSecret.None? || x.installSecret.value == InstallOf(k)
    requires x.uninstallSecret == b.uninstallSecret || x.uninstallSecret.None? || x.uninstallSecret.value == UninstallOf(k)
    ensures HostOk(w, s, h, x)
  {
  }

  /** So does resuming it, or reserving it. */
  lemma BaseHostOk(w: World, s: System, k: Key, e: MachineEnv)
    requires Inv(w, s) && Normal(s, k, e) && FetchedOk(w, s, k, e) && PickOk(s, k, e)
    requires e.fetched.Some? || Attaches(s, k, e)
    ensures var b, h := BaseHost(w, s, k, e), Target(e).value;
            HostOk(w, s.(attachedTo := s.attachedTo[k := h]), h, b) && b.machineRef == Some(k) && Cleanup !in b.notes
  {
    Observations(w, s, k, e);
    assert HostOk(w, s, Target(e).value, s.hosts[Target(e).value]);
    if k in s.attachedTo { assert Held(s, k); }
    hide Inv, BaseVersion;
  }

  /** The host that a normal reconcile leaves is well formed, given the attachments it leaves. */
  lemma NormalHostOk(w: World, s: System, k: Key, e: MachineEnv)
    requires Inv(w, s) && Normal(s, k, e) && FetchedOk(w, s, k, e) && PickOk(s, k, e)
    requires e.fetched.Some? || Attaches(s, k, e)
    ensures var x, h := NormalView(w, s, k, e).host, Target(e).value;
            && x.Some? && x.value.machineRef == Some(k) && Cleanup !in x.value.notes
            && HostOk(w, s.(attachedTo := s.attachedTo[k := h]), h, x.value)
  {
    hide NormalView, HostOk, BaseHost;
    if k in s.configs { assert ConfigOk(w, s, k, s.configs[k]); }
    NormalHost(w, s, k, e);
    BaseHostOk(w, s, k, e);
    hide Inv, FetchedOk, PickOk;
    var h := Target(e).value;
    HandedOk(w, s.(attachedTo := s.attachedTo[k := h]), h, k, BaseHost(w, s, k, e), NormalView(w, s, k, e).host.value);
  }

  lemma OwnAttachment(w: World, s: System, k: Key, h: Key)
    requires Inv(w, s) && h in s.hosts && s.hosts[h].machineRef == Some(k)
    ensures s.(attachedTo := s.attachedTo[k := h]) == s
  {
    assert HostOk(w, s, h, s.hosts[h]);
  }

  lemma WriteRestKeeps(w: World, s: System, k: Key, e: MachineEnv, v: View)
    requires Inv(w, s) && k in s.used
    requires k !in s.configs && v.config.Some? ==> v.config.value == NEW_CONFIG
    ensures Inv(w, WriteRest(s, k, e, v))
  {
    var t := WriteRest(s, k, e, v);
    if v.config.Some? && k !in s.configs {
      ConfigWrite(w, s, k, NEW_CONFIG);
      hide Inv;
      Unseen(w, PutConfig(s, k, NEW_CONFIG), t.nodes, s.trace);
    } else {
      hide Inv;
      Unseen(w, s, t.nodes, s.trace);
    }
  }

  /** The host that a paused or a deleting reconcile writes. */
  lemma OtherHostOk(w: World, s: System, k: Key, e: MachineEnv)
    requires Inv(w, s) && k in s.machines && FetchedOk(w, s, k, e) && e.fetched.Some?
    ensures var h := e.fetched.value;
            && HostOk(w, s, h, WithPaused(s.hosts[h], true))
            && HostOk(w, s, h, MarkedForCleanup(s.hosts[h], e.upgrading))
            && (Cleanup in WithPaused(s.hosts[h], true).notes ==> Cleanup in s.hosts[h].notes)
  {
    var h := e.fetched.value;
    assert HostOk(w, s, h, s.hosts[h]);
    hide Inv;
  }

  lemma WriteHostKeeps(w: World, s: System, k: Key, e: MachineEnv)
    requires Inv(w, s) && k in s.machines && FetchedOk(w, s, k, e) && PickOk(s, k, e) && e.resolvable
    ensures Inv(w, WriteHost(s, k, e, PassView(w, s, k, e)))
  {
    hide NormalView, HostOk;
    ViewFacts(w, s, k, e);
    Observations(w, s, k, e);
    var x := PassView(w, s, k, e).host;
    if x.Some? && e.fetched.Some? {
      var h := e.fetched.value;
      OwnAttachment(w, s, k, h);
      OtherHostOk(w, s, k, e);
      if Live(s, k) { assert Held(s, k); }
      if Live(s, k) && !e.paused { NormalHostOk(w, s, k, e); }
      HostWrite(w, s, h, x.value);
    } else if x.Some? {
      NormalHostOk(w, s, k, e);
      ReserveWrite(w, s, k, e.pick.value, x.value);
    }
  }

  lemma ViewMachine(w: World, s: System, k: Key, e: MachineEnv)
    requires k in s.machines && FetchedOk(w, s, k, e) && PickOk(s, k, e) && e.resolvable
    ensures var m, n := s.machines[k], PassView(w, s, k, e).m;
            (m.deleting ==> n.deleting) && (m.hostInfo != "" ==> n.hostInfo == m.hostInfo)
  {
    if !e.paused && !s.machines[k].deleting { NormalMachine(w, s, k, e); }
    hide NormalView;
  }

  lemma MachinePassKeeps(w: World, s: System, k: Key, e: MachineEnv)
    requires Sound(w) && Inv(w, s) && k in s.machines && FetchedOk(w, s, k, e) && PickOk(s, k, e)
    ensures Inv(w, MachinePass(w, s, k, e))
  {
    if e.resolvable {
      assert k in s.used;
      hide Inv, PassView, PutMachine, WriteHost, WriteRest;
      var v := PassView(w, s, k, e);
      WriteHostKeeps(w, s, k, e);
      ViewFacts(w, s, k, e);
      ViewMachine(w, s, k, e);
      var s1 := WriteHost(s, k, e, v);
      WriteRestKeeps(w, s1, k, e, v);
      MachineWrite(w, WriteRest(s1, k, e, v), k, v.m);
    }
  }

  // ---------------------------------------------------------------- the other controllers

  lemma HostPassKeeps(w: World, s: System, h: Key, cut: bool)
    requires Inv(w, s) && h in s.hosts
    ensures Inv(w, HostPass(s, h, cut))
  {
    var host := s.hosts[h];
    assert HostOk(w, s, h, host);
    if Collects(host) {
      SecretGone(w, s, h);
      var t := s.(secrets := s.secrets - {host.uninstallSecret.value});
      HostWrite(w, t, h, host.(uninstallSecret := None));
    }
  }

  /** No live machine's config needs the secret that a free host names. */
  lemma SecretGone(w: World, s: System, h: Key)
    requires Inv(w, s) && h in s.hosts && Collects(s.hosts[h])
    ensures Inv(w, s.(secrets := s.secrets - {s.hosts[h].uninstallSecret.value}))
  {
    assert HostOk(w, s, h, s.hosts[h]);
    var t := s.(secrets := s.secrets - {s.hosts[h].uninstallSecret.value});
    forall x | x in t.configs ensures ConfigOk(w, t, x, t.configs[x]) {
      assert ConfigOk(w, s, x, s.configs[x]);
      assert Live(s, x) && x in s.attachedTo ==> Held(s, x);
    }
    forall x | x in t.hosts ensures HostOk(w, t, x, t.hosts[x]) { assert HostOk(w, s, x, s.hosts[x]); }
    forall x | Live(t, x) && x in t.attachedTo ensures Held(t, x) { assert Held(s, x); }
  }

  /** Wherever the writes stop, the store is well formed and the config in memory may be patched in. */
  lemma StoreKeeps(w: World, s: System, k: Key, sc: Scripts, stop: ConfigStop)
    requires Inv(w, s) && k in s.configs && !s.configs[k].ready
    requires k in s.machines && w.scripts(k, s.machines[k].hostInfo) == Some(sc)
    ensures var r := StoreScripts(s, k, s.configs[k].(finalizer := true), sc, stop);
            Inv(w, r.0) && ConfigOk(w, r.0, k, r.1)
  {
    var t := StoreScripts(s, k, s.configs[k].(finalizer := true), sc, stop).0;
    assert ConfigOk(w, s, k, s.configs[k]);
    forall x | x in t.configs ensures ConfigOk(w, t, x, t.configs[x]) { assert ConfigOk(w, s, x, s.configs[x]); }
    forall x | x in t.hosts ensures HostOk(w, t, x, t.hosts[x]) { assert HostOk(w, s, x, s.hosts[x]); }
    forall x | Live(t, x) && x in t.attachedTo ensures Held(t, x) { assert Held(s, x); }
  }

  /** A config reconcile stores scripts, or leaves the store and all of the config but its finalizer. */
  lemma ConfigWorkCases(w: World, s: System, k: Key, blocked: bool, stop: ConfigStop)
    requires k in s.configs
    ensures var r, c := ConfigWork(w, s, k, blocked, stop), s.configs[k];
            || r == (s, c.(finalizer := r.1.finalizer))
            || (k in s.machines && !c.ready && w.scripts(k, s.machines[k].hostInfo).Some?
                && r == StoreScripts(s, k, c.(finalizer := true), w.scripts(k, s.machines[k].hostInfo).value, stop))
  {
    hide StoreScripts;
  }

  lemma ConfigWorkKeeps(w: World, s: System, k: Key, blocked: bool, stop: ConfigStop)
    requires Inv(w, s) && k in s.configs
    ensures var r := ConfigWork(w, s, k, blocked, stop); Inv(w, r.0) && ConfigOk(w, r.0, k, r.1)
  {
    var c := s.configs[k];
    assert ConfigOk(w, s, k, c);
    hide Inv, ConfigWork, StoreScripts, Stocked;
    ConfigWorkCases(w, s, k, blocked, stop);
    if k in s.machines && !c.ready && w.scripts(k, s.machines[k].hostInfo).Some? {
      StoreKeeps(w, s, k, w.scripts(k, s.machines[k].hostInfo).value, stop);
    }
  }

  lemma ConfigPassKeeps(w: World, s: System, k: Key, blocked: bool, stop: ConfigStop, lost: bool)
    requires Inv(w, s)
    ensures Inv(w, ConfigPass(w, s, k, blocked, stop, lost))
  {
    if k in s.configs {
      ConfigWorkKeeps(w, s, k, blocked, stop);
      var r := ConfigWork(w, s, k, blocked, stop);
      ConfigWrite(w, r.0, k, r.1);
      hide Inv, ConfigWork, PutConfig;
    }
  }

  /** A pass of the agent leaves the host well formed; it ends a reservation only on a host that
      is marked for cleanup. */
  lemma AgentPassOk(w: World, s: System, h: Key, skip: bool, o: Outcomes)
    requires h in s.hosts && HostOk(w, s, h, s.hosts[h])
    ensures var host := AgentPass(s.hosts[h], skip, o).host;
            && HostOk(w, s, h, host)
            && (Cleanup in host.notes ==> Cleanup in s.hosts[h].notes)
            && (host.machineRef != s.hosts[h].machineRef ==> host.machineRef.None? && Cleanup in s.hosts[h].notes)
  {
    NormalShape(s.hosts[h], skip, o);
    CleanupShape(s.hosts[h], skip, o);
    var host := AgentPass(s.hosts[h], skip, o).host;
    if Cleanup in s.hosts[h].notes && ReachesEnd(s.hosts[h], skip, o) {
      assert Unreserved(host);
    }
  }

  lemma AgentKeeps(w: World, s: System, h: Key, skip: bool, o: Outcomes, lost: bool)
    requires Inv(w, s) && h in s.hosts
    ensures Inv(w, ApplyAgent(s, h, skip, o, lost))
  {
    var p := AgentPass(s.hosts[h], skip, o);
    var t := Record(s, h, p.events);
    Unseen(w, s, t.nodes, t.trace);
    AgentPassOk(w, t, h, skip, o);
    if s.hosts[h].machineRef.Some? && Live(s, s.hosts[h].machineRef.value) {
      assert HostOk(w, s, h, s.hosts[h]);
      assert Held(s, s.hosts[h].machineRef.value);
    }
    HostWrite(w, t, h, p.host);
  }

  // ---------------------------------------------------------------- all steps

  lemma NewHostKeeps(w: World, s: System, h: Key, host: Host)
    requires Inv(w, s) && h !in s.hosts && HostOk(w, s, h, host) && host.machineRef.None?
    ensures Inv(w, PutHost(s, h, host))
  {
    var t := PutHost(s, h, host);
    assert HostOk(w, t, h, host);
    forall x | Live(t, x) && x in t.attachedTo ensures Held(t, x) { assert Held(s, x); }
    assert t.attachedTo.Keys <= t.used;
    hide Inv, HostOk;
    HostWriteKeeps(w, s, t, h, host);
  }

  lemma RefreshKeeps(w: World, s: System, h: Key, details: string)
    requires Inv(w, s) && h in s.hosts
    ensures Inv(w, PutHost(s, h, s.hosts[h].(details := details)))
  {
    var host := s.hosts[h];
    assert HostOk(w, s, h, host);
    assert host.machineRef.Some? && Live(s, host.machineRef.value) ==> Held(s, host.machineRef.value);
    hide Inv;
    HostWrite(w, s, h, host.(details := details));
  }

  lemma RegisterKeeps(w: World, s: System, step: Step)
    requires Inv(w, s) && Enabled(w, s, step) && step.Register?
    ensures Inv(w, Apply(w, s, step))
  {
    hide Inv;
    if step.h in s.hosts {
      RefreshKeeps(w, s, step.h, step.details);
    } else {
      NewHostKeeps(w, s, step.h, FreshHost(step.labels, step.details));
    }
  }

  lemma EditKeeps(w: World, s: System, step: Step)
    requires Inv(w, s) && Enabled(w, s, step) && step.EditHost?
    ensures Inv(w, Apply(w, s, step))
  {
    var host := s.hosts[step.h];
    var after := host.(labels := step.labels, notes := step.notes);
    assert HostOk(w, s, step.h, host);
    assert forall x :: x in RESERVED_NOTES ==> (x in host.notes <==> x in after.notes);
    if host.machineRef.Some? && Live(s, host.machineRef.value) { assert Held(s, host.machineRef.value); }
    if Unreserved(host) { assert Unreserved(after); } else { assert ReservedBy(w, s, step.h, after, host.machineRef.value); }
    HostWrite(w, s, step.h, after);
  }

  /** The webhook looks for the machine in the namespace of the host, which is the machine's own. */
  lemma DeleteHostKeeps(w: World, s: System, step: Step)
    requires Inv(w, s) && Enabled(w, s, step) && step.DeleteHost?
    ensures Inv(w, Apply(w, s, step))
  {
    var t := Apply(w, s, step);
    forall x | x in t.configs ensures ConfigOk(w, t, x, t.configs[x]) { assert ConfigOk(w, s, x, s.configs[x]); }
    forall x | x in t.hosts ensures HostOk(w, t, x, t.hosts[x]) { assert HostOk(w, s, x, s.hosts[x]); }
    forall x | Live(t, x) && x in t.attachedTo ensures Held(t, x) {
      assert Held(s, x);
      assert HostOk(w, s, s.attachedTo[x], s.hosts[s.attachedTo[x]]);
    }
  }

  lemma CreateKeeps(w: World, s: System, step: Step)
    requires Inv(w, s) && Enabled(w, s, step) && step.CreateMachine?
    ensures Inv(w, Apply(w, s, step))
  {
    var t := Apply(w, s, step);
    forall x | x in t.configs ensures ConfigOk(w, t, x, t.configs[x]) { assert ConfigOk(w, s, x, s.configs[x]); }
    forall x | x in t.hosts ensures HostOk(w, t, x, t.hosts[x]) { assert HostOk(w, s, x, s.hosts[x]); }
    forall x | Live(t, x) && x in t.attachedTo ensures Held(t, x) { assert Held(s, x); }
  }

  lemma SecretsAndDataKeep(w: World, s: System, step: Step)
    requires Inv(w, s) && Enabled(w, s, step) && (step.ProvideData? || step.CollectSecret?)
    ensures Inv(w, Apply(w, s, step))
  {
    var t := Apply(w, s, step);
    forall x | x in t.configs ensures ConfigOk(w, t, x, t.configs[x]) { assert ConfigOk(w, s, x, s.configs[x]); }
    forall x | x in t.hosts ensures HostOk(w, t, x, t.hosts[x]) { assert HostOk(w, s, x, s.hosts[x]); }
    forall x | Live(t, x) && x in t.attachedTo ensures Held(t, x) { assert Held(s, x); }
  }

  lemma StepKeeps(w: World, s: System, step: Step)
    requires Sound(w) && Inv(w, s) && Enabled(w, s, step)
    ensures Inv(w, Apply(w, s, step))
  {
    match step
    case Register(_, _, _) => RegisterKeeps(w, s, step);
    case EditHost(_, _, _) => EditKeeps(w, s, step);
    case DeleteHost(_) => DeleteHostKeeps(w, s, step);
    case CreateMachine(_, _, _, _) => CreateKeeps(w, s, step);
    case DeleteMachine(k) => MachineWrite(w, s, k, s.machines[k].(deleting := true));
    case DropForeign(k) => MachineWrite(w, s, k, s.machines[k].(foreign := false));
    case ProvideData(_, _) => SecretsAndDataKeep(w, s, step);
    case CollectConfig(k) => ConfigWrite(w, s, k, s.configs[k].(deleting := true));
    case CollectSecret(_) => SecretsAndDataKeep(w, s, step);
    case MachineStep(k, env) => MachinePassKeeps(w, s, k, env);
    case HostStep(h, cut) => HostPassKeeps(w, s, h, cut);
    case ConfigStep(k, blocked, stop, lost) => ConfigPassKeeps(w, s, k, blocked, stop, lost);
    case AgentStep(h, skip, o, lost) => AgentKeeps(w, s, h, skip, o, lost);
  }

  /** The invariant holds at every point of every run, whatever faults occur. */
  lemma {:induction false} Invariant(w: World, r: Run, i: nat)
    requires Sound(w) && Valid(w, r) && i < |r.states|
    ensures Inv(w, r.states[i])
  {
    if i > 0 {
      Invariant(w, r, i - 1);
      assert Next(w, r, i - 1);
      StepKeeps(w, r.states[i - 1], r.steps[i - 1]);
    }
  }
}
