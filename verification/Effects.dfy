/** What a normal reconcile of a ByoMachine changes, in closed form. */
module Effects {
  import opened Objects
  import opened Agent
  import opened Manager
  import opened Protocol

  /** When a normal reconcile reserves a host. */
  predicate Attaches(s: System, k: Key, e: MachineEnv)
    requires k in s.machines
  {
    && e.resolvable && !e.paused && !s.machines[k].deleting
    && e.fetched.None? && !(s.machines[k].installer && e.stop == AtConfig)
    && e.infraReady && k in s.dataSecret
    && e.stop != AtReserve && e.pick.Some?
  }

  /** When a reconcile marks the machine's host for cleanup. */
  predicate Marks(s: System, k: Key, e: MachineEnv)
    requires k in s.machines
  {
    e.resolvable && !e.paused && s.machines[k].deleting && e.fetched.Some? && e.stop == Complete
  }

  predicate Normal(s: System, k: Key, e: MachineEnv) {
    && k in s.machines && !s.machines[k].deleting && e.resolvable && !e.paused
    && (e.fetched.Some? ==> e.fetched.value in s.hosts)
    && (e.pick.Some? ==> e.pick.value in s.hosts)
  }

  /** The host before any secret is handed over. */
  function BaseHost(w: World, s: System, k: Key, e: MachineEnv): Host
    requires Normal(s, k, e) && (e.fetched.Some? || Attaches(s, k, e))
  {
    if e.fetched.None? then
      Reserved(s.hosts[e.pick.value], k, s.machines[k].cluster, w.tag(k), s.dataSecret[k], e)
    else if e.stop == AtUnpause then s.hosts[e.fetched.value]
    else WithPaused(s.hosts[e.fetched.value], false)
  }

  /** A reference on the host stays if it is set, and otherwise stays unset or is taken from the
      stored config, which then is ready. */
  predicate Handed(before: Option<SecretId>, after: Option<SecretId>, ready: bool, offer: Option<SecretId>) {
    after == before || (before.None? && ready && after == offer)
  }

  lemma NormalHost(w: World, s: System, k: Key, e: MachineEnv)
    requires Normal(s, k, e)
    ensures var v := NormalView(w, s, k, e);
            && (v.host.Some? <==> e.fetched.Some? || Attaches(s, k, e))
            && (v.host.Some? ==>
                  var b, x := BaseHost(w, s, k, e), v.host.value;
                  && x == b.(installSecret := x.installSecret, uninstallSecret := x.uninstallSecret)
                  && (x != b ==> k in s.configs)
                  && (k in s.configs ==>
                        && Handed(b.installSecret, x.installSecret, s.configs[k].ready, s.configs[k].install)
                        && Handed(b.uninstallSecret, x.uninstallSecret, s.configs[k].ready, s.configs[k].uninstall)))
  {
    hide Reserved, WithPaused, NoteInfo, UpdateNode;
  }

  lemma NormalMachine(w: World, s: System, k: Key, e: MachineEnv)
    requires Normal(s, k, e)
    ensures var v, m := NormalView(w, s, k, e), s.machines[k];
            && v.m == m.(finalizer := true, status := v.m.status, ready := v.m.ready, providerID := v.m.providerID, hostInfo := v.m.hostInfo)
            && (m.hostInfo != "" ==> v.m.hostInfo == m.hostInfo)
            && (v.config == Get(s.configs, k) || (k !in s.configs && v.config == Some(NEW_CONFIG)))
            && (v.node.Some? <==> NodeKey(m, e) in s.nodes)
  {
    hide Unpause, EnsureConfig, Reserve, NoteInfo, GiveInstall, GiveUninstall, UpdateNode;
  }

  // ---------------------------------------------------------------- any reconcile

  lemma WriteBackHosts(s: System, k: Key, e: MachineEnv, v: View)
    ensures var t := WriteBack(s, k, e, v);
            && t.hosts == (if v.host.Some? && Target(e).Some? then s.hosts[Target(e).value := v.host.value] else s.hosts)
            && t.attachedTo == (if v.host.Some? && e.fetched.None? && e.pick.Some? then s.attachedTo[k := e.pick.value] else s.attachedTo)
  {
    WroteHost(s, k, e, v);
    hide WriteHost, WriteRest, PutMachine;
  }

  lemma WroteHost(s: System, k: Key, e: MachineEnv, v: View)
    ensures var t := WriteHost(s, k, e, v);
            && t.hosts == (if v.host.Some? && Target(e).Some? then s.hosts[Target(e).value := v.host.value] else s.hosts)
            && t.attachedTo == (if v.host.Some? && e.fetched.None? && e.pick.Some? then s.attachedTo[k := e.pick.value] else s.attachedTo)
  {
  }

  lemma WriteBackFrame(s: System, k: Key, e: MachineEnv, v: View)
    ensures var t := WriteBack(s, k, e, v);
            && t.secrets == s.secrets && t.dataSecret == s.dataSecret && t.used == s.used && t.trace == s.trace
            && t.configs == (if v.config.Some? && k !in s.configs then s.configs[k := v.config.value] else s.configs)
  {
    hide WriteHost, PutMachine;
  }

  lemma WriteBackMachines(s: System, k: Key, e: MachineEnv, v: View)
    ensures var t := WriteBack(s, k, e, v);
            && (forall x :: x != k ==> (x in t.machines <==> x in s.machines) && (x in s.machines ==> t.machines[x] == s.machines[x]))
            && (if e.lost then t.machines == s.machines
                else if v.m.deleting && !v.m.finalizer && !v.m.foreign then k !in t.machines
                else k in t.machines && t.machines[k] == v.m)
  {
    hide WriteHost, WriteRest;
  }

  /** What the view of a reconcile says: the target host is written if it is the machine's own or
      is reserved now, and no config is created but a new one. */
  lemma ViewFacts(w: World, s: System, k: Key, e: MachineEnv)
    requires k in s.machines && FetchedOk(w, s, k, e) && PickOk(s, k, e) && e.resolvable
    ensures var v := PassView(w, s, k, e);
            && (v.host.Some? ==> Target(e).Some? && Target(e).value in s.hosts)
            && (v.host.Some? && e.fetched.None? <==> Attaches(s, k, e))
            && (v.config.Some? && k !in s.configs ==> v.config.value == NEW_CONFIG)
  {
    if !e.paused && !s.machines[k].deleting {
      NormalHost(w, s, k, e);
      NormalMachine(w, s, k, e);
    }
    hide NormalView, WithPaused, MarkedForCleanup;
  }

  /** A reconcile writes at most its target host, and records an attachment only if it reserves. */
  lemma PassHosts(w: World, s: System, k: Key, e: MachineEnv)
    requires k in s.machines && FetchedOk(w, s, k, e) && PickOk(s, k, e) && e.resolvable
    ensures var t, x := MachinePass(w, s, k, e), PassView(w, s, k, e).host;
            && (x.Some? ==> Target(e).Some? && Target(e).value in s.hosts)
            && t.hosts == (if x.Some? then s.hosts[Target(e).value := x.value] else s.hosts)
            && t.attachedTo == (if Attaches(s, k, e) then s.attachedTo[k := e.pick.value] else s.attachedTo)
  {
    ViewFacts(w, s, k, e);
    hide PassView, WriteBack, Attaches;
    WriteBackHosts(s, k, e, PassView(w, s, k, e));
  }

  /** How a ByoMachine reconcile may change a host: it writes no condition, replaces no reference
      that is set, takes no cleanup mark away, and leaves the record of an existing reservation
      alone. */
  predicate Evolves(a: Host, b: Host) {
    && b.node == a.node && b.components == a.components && b.details == a.details && b.deleting == a.deleting
    && (a.machineRef.Some? ==> b.machineRef == a.machineRef && b.bootstrapSecret == a.bootstrapSecret)
    && (a.installSecret.Some? ==> b.installSecret == a.installSecret)
    && (a.uninstallSecret.Some? ==> b.uninstallSecret == a.uninstallSecret)
    && (Cleanup in a.notes ==> Cleanup in b.notes)
    && (a.machineRef.Some? ==> Agree(RESERVED_LABELS, a.labels, b.labels)
                               && Agree({EndpointIP, K8sVersion, BundleRegistry}, a.notes, b.notes))
  }

  predicate Moves(a: Host, b: Host, ref: Option<Key>, marked: bool) {
    Evolves(a, b) && b.machineRef == ref && (Cleanup in b.notes <==> marked || Cleanup in a.notes)
  }

  lemma WritesEvolve(a: Host, paused: bool, upgrading: bool)
    ensures Moves(a, a, a.machineRef, false) && Moves(a, WithPaused(a, paused), a.machineRef, false)
    ensures Moves(a, MarkedForCleanup(a, upgrading), a.machineRef, true)
  {
  }

  lemma ReservedEvolves(a: Host, k: Key, cluster: string, tag: string, data: string, e: MachineEnv)
    requires a.machineRef.None?
    ensures Moves(a, Reserved(a, k, cluster, tag, data, e), Some(k), false)
  {
    hide BaseVersion;
  }

  lemma HandedMoves(a: Host, b: Host, x: Host, ref: Option<Key>, marked: bool)
    requires Moves(a, b, ref, marked)
    requires x == b.(installSecret := x.installSecret, uninstallSecret := x.uninstallSecret)
    requires b.installSecret.Some? ==> x.installSecret == b.installSecret
    requires b.uninstallSecret.Some? ==> x.uninstallSecret == b.uninstallSecret
    ensures Moves(a, x, ref, marked)
  {
  }

  lemma NormalMoves(w: World, s: System, k: Key, e: MachineEnv)
    requires Normal(s, k, e) && (e.fetched.Some? || Attaches(s, k, e))
    requires e.pick.Some? ==> s.hosts[e.pick.value].machineRef.None?
    ensures var a, x := s.hosts[Target(e).value], NormalView(w, s, k, e).host;
            x.Some? && Moves(a, x.value, if e.fetched.None? then Some(k) else a.machineRef, false)
  {
    var a := s.hosts[Target(e).value];
    NormalHost(w, s, k, e);
    hide Reserved, WithPaused, Moves, NormalView;
    WritesEvolve(a, false, false);
    if e.fetched.None? { ReservedEvolves(a, k, s.machines[k].cluster, w.tag(k), s.dataSecret[k], e); }
    HandedMoves(a, BaseHost(w, s, k, e), NormalView(w, s, k, e).host.value, if e.fetched.None? then Some(k) else a.machineRef, false);
  }

  /** The host a reconcile writes evolves; its reference and its mark change only as announced. */
  lemma TargetEvolves(w: World, s: System, k: Key, e: MachineEnv)
    requires k in s.machines && FetchedOk(w, s, k, e) && PickOk(s, k, e) && e.resolvable
    requires e.pick.Some? ==> s.hosts[e.pick.value].machineRef.None?
    ensures var b := PassView(w, s, k, e).host;
            && (Marks(s, k, e) || Attaches(s, k, e) ==> b.Some?)
            && (b.Some? ==>
                  && Target(e).Some? && Target(e).value in s.hosts
                  && var a := s.hosts[Target(e).value];
                     Moves(a, b.value, if Attaches(s, k, e) then Some(k) else a.machineRef, Marks(s, k, e)))
  {
    ViewFacts(w, s, k, e);
    hide WithPaused, MarkedForCleanup, Moves, NormalView;
    if e.paused || s.machines[k].deleting {
      if e.fetched.Some? { WritesEvolve(s.hosts[e.fetched.value], e.paused, e.upgrading); }
    } else if e.fetched.Some? || Attaches(s, k, e) {
      NormalMoves(w, s, k, e);
    }
  }

  lemma Unresolved(w: World, s: System, k: Key, e: MachineEnv)
    requires k in s.machines && FetchedOk(w, s, k, e) && PickOk(s, k, e) && !e.resolvable
    ensures MachinePass(w, s, k, e) == s
  {
  }
}
