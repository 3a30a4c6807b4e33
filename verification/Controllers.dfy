/** The manager's three controllers as they are written: objects in memory are changed field by field
    and sent to the store patch by patch. Each is proved to leave the store that the corresponding pass
    function says, wherever it stops; for the ByoMachine controller this means that its separate
    patches add up to one write at the end. */
module Controllers {
  import opened Objects
  import opened Manager
  import Agent
  import opened HostReconciler

  /** The store, together with the history that the model keeps. */
  class Store {
    var hosts: map<Key, Host>
    var machines: map<Key, Machine>
    var configs: map<Key, InstallerConfig>
    var secrets: map<SecretId, Secret>
    var nodes: map<Key, string>
    var dataSecret: map<Key, string>
    var used: set<Key>
    var attachedTo: map<Key, Key>
    var trace: map<Key, seq<Agent.Event>>

    function Value(): System
      reads this
    {
      System(hosts, machines, configs, secrets, nodes, dataSecret, used, attachedTo, trace)
    }

    constructor (s: System)
      ensures Value() == s
    {
      hosts, machines, configs, secrets, nodes := s.hosts, s.machines, s.configs, s.secrets, s.nodes;
      dataSecret, used, attachedTo, trace := s.dataSecret, s.used, s.attachedTo, s.trace;
    }

    // -------------------------------------------------------------- ByoHost controller

    /** `cut`: the reconcile fails after the secret is gone. */
    method ReconcileHost(h: Key, cut: bool)
      modifies this`hosts, this`secrets
      ensures Value() == if h in old(hosts) then HostPass(old(Value()), h, cut) else old(Value())
      ensures h in old(hosts) && Collects(old(hosts[h])) ==>
                old(hosts[h]).uninstallSecret.value !in secrets && (!cut ==> h in hosts && hosts[h].uninstallSecret.None?)
    {
      if h !in hosts { return; }
      var byoHost := new ByoHost(hosts[h]);
      if byoHost.uninstallSecret.Some? && byoHost.machineRef.None? && Cleanup !in byoHost.notes {
        var id := byoHost.uninstallSecret.value;
        if id in secrets { secrets := secrets - {id}; }
        assert secrets == old(secrets) - {id};
        if cut { return; }
        byoHost.uninstallSecret := None;
        hosts := hosts[h := byoHost.Value()];
      }
    }

    // -------------------------------------------------------------- K8sInstallerConfig controller

    method ReconcileConfig(w: World, k: Key, blocked: bool, stop: ConfigStop, lost: bool)
      modifies this`configs, this`secrets
      ensures Value() == ConfigPass(w, old(Value()), k, blocked, stop, lost)
      ensures k in old(configs) && !lost ==> (k in configs <==> !old(configs[k]).deleting)
    {
      if k !in configs { return; }
      var config := new Config(configs[k]);
      config.finalizer := true;
      if config.deleting {
        config.finalizer := false;
      } else if k in machines && !blocked && machines[k].status == NotReady(InstallationSecretNotAvailable) && !config.ready {
        var scripts := w.scripts(k, machines[k].hostInfo);
        if scripts.Some? { var _ := StoreInstallationData(config, k, scripts.value, stop); }
      }
      if !lost { PatchConfig(k, config.Value()); }
    }

    method StoreInstallationData(config: Config, k: Key, scripts: Scripts, stop: ConfigStop) returns (ok: bool)
      modifies this`secrets, config
      ensures Value() == StoreScripts(old(Value()), k, old(config.Value()), scripts, stop).0
      ensures config.Value() == StoreScripts(old(Value()), k, old(config.Value()), scripts, stop).1
      ensures ok == (stop == Stored)
    {
      if stop == BeforeInstall { return false; }
      secrets := secrets[InstallOf(k) := Secret(Some(k), Install(scripts.install))];
      config.install := Some(InstallOf(k));
      if stop == BeforeUninstall { return false; }
      secrets := secrets[UninstallOf(k) := Secret(None, Uninstall(scripts.uninstall))];
      config.uninstall := Some(UninstallOf(k));
      config.ready := true;
      return true;
    }

    method PatchConfig(k: Key, c: InstallerConfig)
      modifies this`configs
      ensures Value() == PutConfig(old(Value()), k, c)
    {
      if c.deleting && !c.finalizer { configs := configs - {k}; } else { configs := configs[k := c]; }
    }
  }

  /** A K8sInstallerConfig in memory. */
  class Config {
    var finalizer: bool
    var deleting: bool
    var ready: bool
    var install: Option<SecretId>
    var uninstall: Option<SecretId>

    function Value(): InstallerConfig
      reads this
    {
      InstallerConfig(finalizer, deleting, ready, install, uninstall)
    }

    constructor (c: InstallerConfig)
      ensures Value() == c
    {
      finalizer, deleting, ready, install, uninstall := c.finalizer, c.deleting, c.ready, c.install, c.uninstall;
    }
  }
}
