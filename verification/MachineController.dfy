/** The ByoMachine controller as it is written: the machine and its host are objects in memory that are
    changed in place, the host is patched after each change, and the machine once at the end. */
module MachineController {
  import opened Objects
  import opened Manager
  import opened HostReconciler
  import opened Controllers
  import ProviderId

  /** A ByoMachine in memory. */
  class ByoMachine {
    const cluster: string
    const installer: bool
    var finalizer: bool
    var foreign: bool
    var deleting: bool
    var status: MachineStatus
    var ready: bool
    var providerID: string
    var hostInfo: string

    function Value(): Machine
      reads this
    {
      Machine(cluster, installer, finalizer, foreign, deleting, status, ready, providerID, hostInfo)
    }

    constructor (m: Machine)
      ensures Value() == m
    {
      cluster, installer, finalizer, foreign, deleting := m.cluster, m.installer, m.finalizer, m.foreign, m.deleting;
      status, ready, providerID, hostInfo := m.status, m.ready, m.providerID, m.hostInfo;
    }
  }

  /** What the store is when a reconcile with view `v` has sent its patches so far. */
  function Sent(s: System, k: Key, e: MachineEnv, v: View): (t: System)
    ensures t == s.(hosts := t.hosts, attachedTo := t.attachedTo, configs := t.configs, nodes := t.nodes)
  {
    WriteRest(WriteHost(s, k, e, v), k, e, v)
  }

  lemma HostAgain(s: System, k: Key, e: MachineEnv, v: View, x: Host)
    requires v.host.Some? && Target(e).Some?
    ensures WriteHost(s, k, e, v.(host := Some(x))) == PutHost(WriteHost(s, k, e, v), Target(e).value, x)
  {
    var h := Target(e).value;
    assert s.hosts[h := v.host.value][h := x] == s.hosts[h := x];
  }

  lemma SentHost(s: System, k: Key, e: MachineEnv, v: View, x: Host)
    requires v.host.Some? && Target(e).Some?
    ensures Sent(s, k, e, v.(host := Some(x))) == PutHost(Sent(s, k, e, v), Target(e).value, x)
  {
    HostAgain(s, k, e, v, x);
    hide WriteHost;
  }

  lemma SentSame(s: System, k: Key, e: MachineEnv, v: View, v': View)
    requires v'.host == v.host && v'.config == v.config && v'.node == v.node && v'.m.cluster == v.m.cluster
    ensures Sent(s, k, e, v') == Sent(s, k, e, v)
  {
  }

  lemma SentStart(s: System, k: Key, e: MachineEnv)
    requires k in s.machines && (e.fetched.Some? ==> e.fetched.value in s.hosts)
    ensures Sent(s, k, e, StartView(s, k, e)) == s
  {
    var v := StartView(s, k, e);
    assert v.host.Some? ==> s.hosts[e.fetched.value := v.host.value] == s.hosts;
    assert v.node.Some? ==> s.nodes[NodeKey(v.m, e) := v.node.value] == s.nodes;
  }

  /** What one reconcile works on: the ByoMachine, and the ByoHost once there is one. */
  class Scope {
    const store: Store
    const k: Key
    const machine: ByoMachine
    var host: ByoHost?

    constructor (store: Store, k: Key, machine: ByoMachine, host: ByoHost?)
      ensures this.store == store && this.k == k && this.machine == machine && this.host == host
    {
      this.store, this.k, this.machine, this.host := store, k, machine, host;
    }

    ghost predicate Synced(s: System, e: MachineEnv, v: View)
      reads this, store, machine, host
    {
      && machine.Value() == v.m
      && (host == null <==> v.host.None?)
      && (host != null ==> host.Value() == v.host.value && Target(e).Some?)
      && store.Value() == Sent(s, k, e, v)
      && v.config == Get(store.configs, k) && v.node == Get(store.nodes, NodeKey(v.m, e))
    }

    /** Passes a pause, or its end, on to the host; both writes reach the store together or not at all. */
    method SetPaused(isPaused: bool, e: MachineEnv) returns (ok: bool)
      requires host != null && Target(e).Some?
      modifies store`hosts, host`notes
      ensures ok == (e.stop != AtUnpause)
      ensures host.Value() == if ok then WithPaused(old(host.Value()), isPaused) else old(host.Value())
      ensures store.hosts == if ok then old(store.hosts)[Target(e).value := host.Value()] else old(store.hosts)
    {
      if e.stop == AtUnpause { return false; }
      if isPaused {
        host.notes := host.notes[Paused := ""];
      } else {
        host.notes := host.notes - {Paused};
      }
      store.hosts := store.hosts[Target(e).value := host.Value()];
      return true;
    }

    /** A reconcile that is not paused ends the pause of the host it has. */
    method Resume(e: MachineEnv, ghost s: System, ghost v: View) returns (ok: bool)
      requires Synced(s, e, v) && host != null
      modifies store`hosts, host`notes
      ensures Synced(s, e, Unpause(v, e)) && ok == (e.stop != AtUnpause)
    {
      ok := SetPaused(false, e);
      if ok {
        SentHost(s, k, e, v, host.Value());
      } else {
        SentSame(s, k, e, v, v.(done := true));
      }
    }
  
    method CreateInstallerConfig(e: MachineEnv, ghost s: System, ghost v: View) returns (ok: bool)
      requires Synced(s, e, v) && !v.done && machine.installer
      modifies store`configs
      ensures Synced(s, e, EnsureConfig(v, e)) && ok == (e.stop != AtConfig)
    {
      if e.stop == AtConfig {
        SentSame(s, k, e, v, v.(done := true));
        return false;
      }
      if k !in store.configs {
        SentConfig(s, k, e, v);
        store.configs := store.configs[k := NEW_CONFIG];
      }
      return true;
    }

    method FillReservation(picked: ByoHost, tag: string, data: string, e: MachineEnv)
      modifies picked
      ensures picked.Value() == Reserved(old(picked.Value()), k, machine.cluster, tag, data, e)
      ensures EndpointIP in picked.notes && picked.notes[EndpointIP] == e.endpoint
      ensures K8sVersion in picked.notes && picked.notes[K8sVersion] == BaseVersion(e.version)
      ensures BundleRegistry in picked.notes && picked.notes[BundleRegistry] == e.registry
    {
      picked.machineRef := Some(k);
      picked.labels := picked.labels[ClusterName := machine.cluster];
      picked.labels := picked.labels[AttachedMachine := tag];
      picked.bootstrapSecret := Some(BootstrapData(k.ns, data));
      picked.notes := picked.notes[EndpointIP := e.endpoint];
      picked.notes := picked.notes[K8sVersion := BaseVersion(e.version)];
      picked.notes := picked.notes[BundleRegistry := e.registry];
    }

    /** Send the reservation of the picked host. */
    method TakeHost(tag: string, data: string, e: MachineEnv, ghost s: System, ghost v: View)
      requires Synced(s, e, v) && host == null && e.fetched.None? && e.pick.Some? && e.pick.value in s.hosts
      modifies this`host, store`hosts, store`attachedTo
      ensures Synced(s, e, v.(host := Some(Reserved(s.hosts[e.pick.value], k, machine.cluster, tag, data, e))))
      ensures fresh(host)
    {
      SentUnattached(s, k, e, v);
      hide Sent, Reserved;
      var picked := new ByoHost(store.hosts[e.pick.value]);
      FillReservation(picked, tag, data, e);
      SentAttach(s, k, e, v, picked.Value());
      store.hosts := store.hosts[e.pick.value := picked.Value()];
      store.attachedTo := store.attachedTo[k := e.pick.value];
      host := picked;
    }

    /** Reserve the first of the hosts that the list of unreserved hosts returned. */
    method AttachByoHost(w: World, e: MachineEnv, data: string, ghost s: System, ghost v: View) returns (ok: bool)
      requires Synced(s, e, v) && !v.done && (host == null ==> e.fetched.None?) && e.infraReady
      requires e.pick.Some? ==> e.pick.value in s.hosts
      modifies this`host, store`hosts, store`attachedTo, machine`status
      ensures var spare := if e.pick.Some? then Some(s.hosts[e.pick.value]) else None;
              Synced(s, e, Reserve(w, v, k, Some(data), spare, e)) && ok == !Reserve(w, v, k, Some(data), spare, e).done
      ensures host == old(host) || fresh(host)
    {
      if host != null { return true; }
      hide Sent, Reserved, Get;
      if e.stop == AtReserve {
        SentSame(s, k, e, v, v.(done := true));
        return false;
      }
      if e.pick.None? {
        machine.status := NotReady(HostsUnavailable);
        SentSame(s, k, e, v, v.(m := machine.Value(), done := true));
        return false;
      }
      TakeHost(w.tag(k), data, e, s, v);
      machine.status := NotReady(InstallationSecretNotAvailable);
      SentSame(s, k, e, v.(host := Some(host.Value())), v.(host := Some(host.Value()), m := machine.Value()));
      return true;
    }

    method SetInstallationSecret(e: MachineEnv, ghost s: System, ghost v: View) returns (ok: bool)
      requires Synced(s, e, v) && !v.done && host != null && machine.installer && host.installSecret.None?
      modifies store`hosts, host`installSecret
      ensures Synced(s, e, GiveInstall(v, e)) && ok == !GiveInstall(v, e).done
    {
      if e.stop == AtInstall || k !in store.configs || !store.configs[k].ready || store.configs[k].install.None? {
        SentSame(s, k, e, v, v.(done := true));
        return false;
      }
      host.installSecret := store.configs[k].install;
      store.hosts := store.hosts[Target(e).value := host.Value()];
      SentHost(s, k, e, v, host.Value());
      return true;
    }

    method SetUninstallationSecret(e: MachineEnv, ghost s: System, ghost v: View) returns (ok: bool)
      requires Synced(s, e, v) && !v.done && host != null && machine.installer && host.uninstallSecret.None?
      modifies store`hosts, host`uninstallSecret
      ensures Synced(s, e, GiveUninstall(v, e)) && ok == !GiveUninstall(v, e).done
    {
      if e.stop == AtUninstall || k !in store.configs || !store.configs[k].ready || store.configs[k].uninstall.None? {
        SentSame(s, k, e, v, v.(done := true));
        return false;
      }
      host.uninstallSecret := store.configs[k].uninstall;
      store.hosts := store.hosts[Target(e).value := host.Value()];
      SentHost(s, k, e, v, host.Value());
      return true;
    }

    method UpdateNodeProviderID(e: MachineEnv, ghost s: System, ghost v: View)
      requires Synced(s, e, v) && !v.done && host != null
      modifies store`nodes, machine
      ensures Synced(s, e, UpdateNode(v, NodeKey(v.m, e).name, e))
      ensures var n := NodeKey(v.m, e);
              n in old(store.nodes) && old(store.nodes[n]) != "" && !ProviderId.Accepts(n.name, old(store.nodes[n])) ==>
                store.nodes == old(store.nodes) && machine.Value() == old(machine.Value())
    {
      hide ProviderId.SetNodeProviderID, ProviderId.Accepts, Sent;
      var n := NodeKey(machine.Value(), e);
      if e.stop == AtNode || n !in store.nodes {
        SentSame(s, k, e, v, v.(done := true));
        return;
      }
      var id := ProviderId.SetNodeProviderID(n.name, store.nodes[n], e.suffix);
      ProviderId.RefusedIff(n.name, store.nodes[n], e.suffix);
      if id.None? {
        SentSame(s, k, e, v, v.(done := true));
        return;
      }
      SentNode(s, k, e, v, id.value);
      store.nodes := store.nodes[n := id.value];
      machine.providerID := id.value;
      machine.ready := true;
      machine.status := HostReady;
      SentSame(s, k, e, v.(node := Some(id.value)), v.(node := Some(id.value), m := machine.Value()));
    }
  
    /** From the moment the machine has a host. */
    method HandOver(e: MachineEnv, ghost s: System, ghost v: View)
      requires Synced(s, e, v) && !v.done && host != null
      modifies store`hosts, store`nodes, host`installSecret, host`uninstallSecret, machine
      ensures Synced(s, e, UpdateNode(GiveUninstall(GiveInstall(NoteInfo(v), e), e), NodeKey(v.m, e).name, e))
    {
      hide Sent;
      if machine.hostInfo == "" { machine.hostInfo := host.details; }
      ghost var v1 := NoteInfo(v);
      SentSame(s, k, e, v, v1);
      ghost var name := NodeKey(v.m, e).name;
      hide NoteInfo;
      if machine.installer && host.installSecret.None? {
        var ok := SetInstallationSecret(e, s, v1);
        if !ok { DoneStays(GiveInstall(v1, e), e, name); return; }
      }
      ghost var v2 := GiveInstall(v1, e);
      hide GiveInstall;
      if machine.installer && host.uninstallSecret.None? {
        var ok := SetUninstallationSecret(e, s, v2);
        if !ok { DoneStays(GiveUninstall(v2, e), e, name); return; }
      }
      hide GiveUninstall;
      UpdateNodeProviderID(e, s, GiveUninstall(v2, e));
    }
  
    ghost predicate Begun(s: System, e: MachineEnv)
      reads this, store, machine, host
    {
      && store.Value() == s && k in s.machines && machine.Value() == s.machines[k]
      && (host == null <==> e.fetched.None?)
      && (host != null ==> e.fetched.value in s.hosts && host.Value() == s.hosts[e.fetched.value])
      && (e.pick.Some? ==> e.pick.value in s.hosts)
    }

    /** Everything before the machine has a host: resume the host, create the config, two gates. */
    method Prepare(e: MachineEnv, ghost s: System) returns (ok: bool)
      requires Begun(s, e)
      modifies store`hosts, store`configs, machine`finalizer, host
      ensures var v := EnsureConfig(Unpause(StartView(s, k, e), e), e); Synced(s, e, v) && ok == !v.done
      ensures host == old(host)
    {
      machine.finalizer := true;
      ghost var v := StartView(s, k, e);
      SentStart(s, k, e);
      hide Sent;
      ghost var name := NodeKey(v.m, e).name;
      if host != null {
        var resumed := Resume(e, s, v);
        if !resumed { DoneStays(Unpause(v, e), e, name); return false; }
      }
      v := Unpause(v, e);
      hide Unpause;
      if machine.installer {
        ok := CreateInstallerConfig(e, s, v);
      } else {
        ok := true;
      }
    }

    /** Infrastructure and bootstrap data must be there, or the reason why the machine waits is noted. */
    method PassGates(e: MachineEnv, ghost s: System, ghost v: View) returns (open: bool)
      requires Synced(s, e, v) && !v.done
      modifies machine`status
      ensures open == (e.infraReady && k in s.dataSecret)
      ensures open ==> machine.status == old(machine.status)
      ensures !open ==>
                var reason := if e.infraReady then WaitingForBootstrapData else WaitingForClusterInfrastructure;
                Synced(s, e, v.(m := v.m.(status := NotReady(reason)), done := true))
    {
      hide Sent;
      if !e.infraReady {
        machine.status := NotReady(WaitingForClusterInfrastructure);
        SentSame(s, k, e, v, v.(m := machine.Value(), done := true));
        return false;
      }
      if k !in store.dataSecret {
        machine.status := NotReady(WaitingForBootstrapData);
        SentSame(s, k, e, v, v.(m := machine.Value(), done := true));
        return false;
      }
      return true;
    }

    /** The two gates, and the reservation of a host if there is none yet. */
    method FindHost(w: World, e: MachineEnv, ghost s: System, ghost v: View) returns (ok: bool)
      requires Synced(s, e, v) && !v.done && (host == null ==> e.fetched.None?) && (e.pick.Some? ==> e.pick.value in s.hosts)
      modifies this`host, store`hosts, store`attachedTo, machine`status
      ensures var r := Reserve(w, v, k, Get(s.dataSecret, k), if e.pick.Some? then Some(s.hosts[e.pick.value]) else None, e);
              Synced(s, e, r) && ok == !r.done
      ensures host == old(host) || fresh(host)
    {
      hide Sent, Reserved;
      var open := PassGates(e, s, v);
      if !open { return false; }
      if host != null { return true; }
      ok := AttachByoHost(w, e, store.dataSecret[k], s, v);
    }

    method ReconcileNormal(w: World, e: MachineEnv, ghost s: System)
      requires Begun(s, e)
      modifies this`host, store`hosts, store`configs, store`nodes, store`attachedTo, machine, host
      ensures Synced(s, e, NormalView(w, s, k, e))
    {
      hide Sent, NormalView, StartView, Unpause, EnsureConfig, Reserve, UpdateNode, GiveInstall, GiveUninstall, NoteInfo;
      ghost var name := NodeKey(s.machines[k], e).name;
      ghost var v := EnsureConfig(Unpause(StartView(s, k, e), e), e);
      ghost var v' := Reserve(w, v, k, Get(s.dataSecret, k), if e.pick.Some? then Some(s.hosts[e.pick.value]) else None, e);
      NormalParts(w, s, k, e);
      var ok := Prepare(e, s);
      if ok { ok := FindHost(w, e, s, v); }
      if !ok {
        DoneStays(v', e, name);
        return;
      }
      HandOver(e, s, v');
    }
  
    /** The cleanup mark goes to the host before the finalizer goes from the machine. */
    method ReconcileDelete(e: MachineEnv, ghost s: System) returns (ok: bool)
      requires Begun(s, e)
      modifies store`hosts, machine`finalizer, host
      ensures var v := DeleteView(s, k, e);
              machine.Value() == v.m && store.Value() == Sent(s, k, e, v)
    {
      SentHostOnly(s, k, e, DeleteView(s, k, e));
      hide Sent;
      if host != null {
        if e.stop != Complete { return false; }
        MarkHostForCleanup(e.upgrading);
        store.hosts := store.hosts[e.fetched.value := host.Value()];
      }
      machine.finalizer := false;
      return true;
    }

    method MarkHostForCleanup(upgrading: bool)
      requires host != null
      modifies host`notes, host`labels
      ensures host.Value() == MarkedForCleanup(old(host.Value()), upgrading)
    {
      host.notes := host.notes[Cleanup := ""];
      if !upgrading {
        host.labels := host.labels - {Pf9Cluster};
        host.labels := host.labels - {Pf9ClusterCP};
        assert host.labels == old(host.labels) - {Pf9Cluster, Pf9ClusterCP};
      }
    }

    /** A pause is passed on to the host, if there is one; failing to do so is only logged. */
    method ReconcilePaused(e: MachineEnv, ghost s: System)
      requires Begun(s, e)
      modifies store`hosts, machine`status, host
      ensures var v := PausedView(s, k, e);
              machine.Value() == v.m && store.Value() == Sent(s, k, e, v)
    {
      SentHostOnly(s, k, e, PausedView(s, k, e));
      hide Sent;
      if host != null {
        var _ := SetPaused(true, e);
      }
      machine.status := NotReady(ResourcePaused);
    }
  }

  /** One reconcile of the ByoMachine `k`. What it observes outside the store, which host its lookup
      by label and its list of unreserved hosts return, and where it is stopped, is in `e`. */
  method Reconcile(w: World, store: Store, k: Key, e: MachineEnv)
    requires FetchedOk(w, store.Value(), k, e) && PickOk(store.Value(), k, e)
    modifies store
    ensures store.Value() == if k in old(store.machines) then MachinePass(w, old(store.Value()), k, e) else old(store.Value())
  {
    if k !in store.machines || !e.resolvable { return; }
    ghost var s := store.Value();
    var machine := new ByoMachine(store.machines[k]);
    var host: ByoHost? := null;
    if e.fetched.Some? { host := new ByoHost(store.hosts[e.fetched.value]); }
    var scope := new Scope(store, k, machine, host);
    assert scope.Begun(s, e);
    hide NormalView, PausedView, DeleteView;
    if e.paused {
      scope.ReconcilePaused(e, s);
    } else if machine.deleting {
      var _ := scope.ReconcileDelete(e, s);
    } else {
      scope.ReconcileNormal(w, e, s);
    }
    if !e.lost { PatchMachine(store, k, machine.Value()); }
    hide Sent, PassView;
  }

  method PatchMachine(store: Store, k: Key, m: Machine)
    modifies store`machines
    ensures store.Value() == PutMachine(old(store.Value()), k, m)
  {
    if m.deleting && !m.finalizer && !m.foreign { store.machines := store.machines - {k}; }
    else { store.machines := store.machines[k := m]; }
  }

  lemma NormalParts(w: World, s: System, k: Key, e: MachineEnv)
    requires k in s.machines
    requires e.fetched.Some? ==> e.fetched.value in s.hosts
    requires e.pick.Some? ==> e.pick.value in s.hosts
    ensures var v := EnsureConfig(Unpause(StartView(s, k, e), e), e);
            var v' := Reserve(w, v, k, Get(s.dataSecret, k), if e.pick.Some? then Some(s.hosts[e.pick.value]) else None, e);
            && NormalView(w, s, k, e) == UpdateNode(GiveUninstall(GiveInstall(NoteInfo(v'), e), e), NodeKey(s.machines[k], e).name, e)
            && v.m == s.machines[k].(finalizer := true) && v'.m.cluster == v.m.cluster
            && (v.done ==> v' == v)
  {
    hide Unpause, EnsureConfig, NoteInfo, GiveInstall, GiveUninstall, UpdateNode;
  }

  lemma DoneStays(v: View, e: MachineEnv, name: string)
    requires v.done
    ensures EnsureConfig(v, e) == v && NoteInfo(v) == v && GiveInstall(v, e) == v && GiveUninstall(v, e) == v && UpdateNode(v, name, e) == v
  {
  }

  lemma SentConfig(s: System, k: Key, e: MachineEnv, v: View)
    requires v.config.None? && k !in s.configs
    ensures var t := Sent(s, k, e, v); Sent(s, k, e, v.(config := Some(NEW_CONFIG))) == t.(configs := t.configs[k := NEW_CONFIG])
  {
    assert WriteHost(s, k, e, v.(config := Some(NEW_CONFIG))) == WriteHost(s, k, e, v);
    hide WriteHost;
  }

  lemma SentHostOnly(s: System, k: Key, e: MachineEnv, v: View)
    requires v.config.None? && v.node.None? && (v.host.Some? ==> e.fetched.Some?)
    ensures Sent(s, k, e, v) == if v.host.Some? then PutHost(s, e.fetched.value, v.host.value) else s
  {
  }

  lemma SentUnattached(s: System, k: Key, e: MachineEnv, v: View)
    requires v.host.None?
    ensures Sent(s, k, e, v).hosts == s.hosts
  {
  }

  lemma SentAttach(s: System, k: Key, e: MachineEnv, v: View, x: Host)
    requires v.host.None? && e.fetched.None? && e.pick.Some?
    ensures var t := Sent(s, k, e, v);
            Sent(s, k, e, v.(host := Some(x))) == t.(hosts := t.hosts[e.pick.value := x], attachedTo := t.attachedTo[k := e.pick.value])
  {
    var v' := v.(host := Some(x));
    assert WriteHost(s, k, e, v) == s;
    assert WriteHost(s, k, e, v') == s.(hosts := s.hosts[e.pick.value := x], attachedTo := s.attachedTo[k := e.pick.value]);
    hide WriteHost, NodeKey;
    assert NodeKey(v.m, e) == NodeKey(v'.m, e);
  }

  lemma SentNode(s: System, k: Key, e: MachineEnv, v: View, id: string)
    requires v.node.Some?
    ensures var t, n := Sent(s, k, e, v), NodeKey(v.m, e); Sent(s, k, e, v.(node := Some(id))) == t.(nodes := t.nodes[n := id])
  {
    var n := NodeKey(v.m, e);
    assert s.nodes[n := v.node.value][n := id] == s.nodes[n := id];
    assert WriteHost(s, k, e, v.(node := Some(id))) == WriteHost(s, k, e, v);
    hide WriteHost;
  }
}
