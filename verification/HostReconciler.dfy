/** The host agent's reconcile as it is written: a fetched ByoHost is changed in place, field by field,
    around commands that may fail. Each method is proved to do what the pass function says. */
module HostReconciler {
  import opened Objects
  import opened Agent

  /** A ByoHost in memory. */
  class ByoHost {
    var deleting: bool
    var labels: map<Label, string>
    var notes: map<Note, string>
    var bootstrapSecret: Option<SecretId>
    var installSecret: Option<SecretId>
    var uninstallSecret: Option<SecretId>
    var machineRef: Option<Key>
    var node: Condition
    var components: Condition
    var details: string

    function Value(): Host
      reads this
    {
      Host(deleting, labels, notes, bootstrapSecret, installSecret, uninstallSecret, machineRef, node, components, details)
    }

    constructor (h: Host)
      ensures Value() == h
    {
      deleting, labels, notes := h.deleting, h.labels, h.notes;
      bootstrapSecret, installSecret, uninstallSecret := h.bootstrapSecret, h.installSecret, h.uninstallSecret;
      machineRef, node, components, details := h.machineRef, h.node, h.components, h.details;
    }
  }

  lemma JoinAfter(h: Host, before: seq<Event>, o: Outcomes)
    requires h.machineRef.Some? && h.bootstrapSecret.Some?
    ensures JoinPass(h, before, o).host == JoinPass(h, [], o).host
    ensures JoinPass(h, before, o).events == before + JoinPass(h, [], o).events
  {
  }

  /** The agent, with the commands it has run. Which calls fail is given by `Outcomes`. */
  class Reconciler {
    const skip: bool
    var log: seq<Event>

    constructor (skip: bool)
      ensures this.skip == skip && log == []
    {
      this.skip := skip;
      log := [];
    }

    method Reconcile(host: ByoHost, o: Outcomes)
      modifies host, this`log
      ensures host.Value() == AgentPass(old(host.Value()), skip, o).host
      ensures log == old(log) + AgentPass(old(host.Value()), skip, o).events
    {
      if Cleanup in host.notes {
        HostCleanUp(host, o);
      } else if !host.deleting {
        ReconcileNormal(host, o);
      }
    }

    method ReconcileNormal(host: ByoHost, o: Outcomes)
      modifies host, this`log
      ensures host.Value() == NormalPass(old(host.Value()), skip, o).host
      ensures log == old(log) + NormalPass(old(host.Value()), skip, o).events
    {
      hide JoinPass;
      if host.machineRef.None? {
        host.node := IsFalse(WaitingForMachineRef);
        return;
      }
      if host.bootstrapSecret.None? {
        host.node := IsFalse(BootstrapDataSecretUnavailable);
        return;
      }
      if !host.node.IsTrue? {
        if !o.readBootstrap { return; }
        if !skip && !host.components.IsTrue? {
          if host.installSecret.None? {
            host.components := IsFalse(InstallationSecretUnavailable);
            return;
          }
          var installed := ExecuteInstaller(host, o);
          if !installed { return; }
          host.components := IsTrue;
        }
        JoinAfter(host.Value(), if log == old(log) then [] else [InstallRun(host.installSecret.value, true)], o);
        Join(host, o);
      }
    }

    /** Runs the install script, if it can be read. */
    method ExecuteInstaller(host: ByoHost, o: Outcomes) returns (ok: bool)
      modifies host`components, this`log
      ensures ok == (host.installSecret.Some? && o.readInstall && o.install)
      ensures log == old(log) + (if host.installSecret.Some? && o.readInstall then [InstallRun(host.installSecret.value, o.install)] else [])
      ensures host.components == if host.installSecret.Some? && o.readInstall && !o.install then IsFalse(InstallationFailed) else old(host.components)
    {
      if host.installSecret.None? || !o.readInstall { return false; }
      log := log + [InstallRun(host.installSecret.value, o.install)];
      if !o.install {
        host.components := IsFalse(InstallationFailed);
        return false;
      }
      return true;
    }

    /** Cleans the directories and runs the bootstrap script; a failed bootstrap is reset at once. */
    method Join(host: ByoHost, o: Outcomes)
      requires host.machineRef.Some? && host.bootstrapSecret.Some?
      modifies host`node, this`log
      ensures host.Value() == JoinPass(old(host.Value()), [], o).host
      ensures log == old(log) + JoinPass(old(host.Value()), [], o).events
    {
      if !o.cleanDirs {
        host.node := IsFalse(CleanDirectoriesFailed);
        return;
      }
      log := log + [BootstrapRun(host.machineRef.value, host.bootstrapSecret.value, o.bootstrap)];
      if !o.bootstrap {
        log := log + [FailureReset(o.reset)];
        host.node := IsFalse(CloudInitExecutionFailed);
        return;
      }
      host.node := IsTrue;
    }

    method HostCleanUp(host: ByoHost, o: Outcomes)
      modifies host, this`log
      ensures host.Value() == CleanupPass(old(host.Value()), skip, o).host
      ensures log == old(log) + CleanupPass(old(host.Value()), skip, o).events
    {
      CleanupParts(host.Value(), skip, o);
      hide CleanupPass, Undone, Released;
      var undone := ResetAndUninstall(host, o);
      if undone { Finish(host, o); }
    }

    /** Only when the sentinel file and the endpoint address are gone is the host released. */
    method Finish(host: ByoHost, o: Outcomes)
      modifies host, this`log
      ensures var h := old(host.Value()).(node := IsFalse(NodeAbsent));
              var end := o.sentinel && (EndpointIP in h.notes ==> o.deleteIP);
              host.Value() == (if end then Released(h) else h) && log == old(log) + (if end then [Freed] else [])
    {
      host.node := IsFalse(NodeAbsent);
      if !o.sentinel { return; }
      if EndpointIP in host.notes && !o.deleteIP { return; }
      host.installSecret := None;
      RemoveAnnotations(host);
      host.node := IsFalse(NodeAbsent);
      log := log + [Freed];
    }

    /** A reset that succeeded is put on record at once, so that a retry does not repeat it. */
    method ResetAndUninstall(host: ByoHost, o: Outcomes) returns (ok: bool)
      modifies host`components, this`log
      ensures ok == UndoneOk(old(host.Value()), skip, o)
      ensures log == old(log) + Undone(old(host.Value()), skip, o)
      ensures host.components == if old(host.components).IsTrue? && o.reset then IsFalse(NodeAbsent) else old(host.components)
    {
      if host.components.IsTrue? {
        log := log + [CleanupReset(o.reset)];
        if !o.reset { return false; }
        host.components := IsFalse(NodeAbsent);
      }
      if !skip && host.uninstallSecret.Some? {
        if !o.readUninstall { return false; }
        log := log + [UninstallRun(host.uninstallSecret.value, o.uninstall)];
        if !o.uninstall { return false; }
      }
      return true;
    }

    /** The reservation goes key by key; the reference to the uninstall secret stays. */
    method RemoveAnnotations(host: ByoHost)
      modifies host`machineRef, host`bootstrapSecret, host`labels, host`notes
      ensures host.Value() == Released(old(host.Value())).(installSecret := host.installSecret)
    {
      host.machineRef := None;
      host.bootstrapSecret := None;
      host.labels := host.labels - {ClusterName};
      host.labels := host.labels - {AttachedMachine};
      host.notes := host.notes - {EndpointIP};
      host.notes := host.notes - {Cleanup};
      host.notes := host.notes - {K8sVersion};
      host.notes := host.notes - {BundleRegistry};
      assert host.labels == old(host.labels) - RESERVED_LABELS;
      assert host.notes == old(host.notes) - RESERVED_NOTES;
    }
  }
}
