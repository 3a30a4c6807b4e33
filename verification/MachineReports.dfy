/** What a ByoMachine says of itself: each reason of its condition means what happened in the reconcile
    that set it, and a ready machine has the provider ID of its node. */
module MachineReports {
  import opened Objects
  import opened Agent
  import opened Manager
  import opened Protocol
  import opened Effects
  import opened Reservation
  import opened HostMoves
  import opened Overlay
  import opened Nodes
  import ProviderId

  // ---------------------------------------------------------------- one reconcile

  /** A normal reconcile gets to its two gates. */
  predicate Started(s: System, k: Key, e: MachineEnv) {
    && Normal(s, k, e)
    && !(e.fetched.Some? && e.stop == AtUnpause) && !(s.machines[k].installer && e.stop == AtConfig)
  }

  /** It gets past them with a host, found or reserved. */
  predicate HasHost(s: System, k: Key, e: MachineEnv) {
    && Started(s, k, e) && e.infraReady && k in s.dataSecret
    && (e.fetched.Some? || (e.pick.Some? && e.stop != AtReserve))
  }

  /** The machine needs no scripts, or each is named by the host or comes from the ready config now. */
  predicate HasScripts(s: System, k: Key, e: MachineEnv)
    requires HasHost(s, k, e)
  {
    var host, ready := s.hosts[Target(e).value], k in s.configs && s.configs[k].ready;
    s.machines[k].installer ==>
      && (host.installSecret.Some? || (ready && s.configs[k].install.Some? && e.stop != AtInstall))
      && (host.uninstallSecret.Some? || (ready && s.configs[k].uninstall.Some? && e.stop != AtUninstall))
  }

  /** The node of the machine is there, and has no ID or one that passes the check for its name. */
  predicate HasNode(s: System, k: Key, e: MachineEnv)
    requires k in s.machines
  {
    var n := NodeKey(s.machines[k], e);
    e.stop != AtNode && n in s.nodes && (s.nodes[n] == "" || ProviderId.Accepts(n.name, s.nodes[n]))
  }

  /** The reconcile gets to the end. */
  predicate Identifies(s: System, k: Key, e: MachineEnv) {
    HasHost(s, k, e) && HasScripts(s, k, e) && HasNode(s, k, e)
  }

  /** The view before the node: how far the reconcile has come. */
  lemma BeforeNode(w: World, s: System, k: Key, e: MachineEnv)
    requires Normal(s, k, e)
    ensures var v, m := HandedOver(w, s, k, e), s.machines[k];
            && (v.done <==> !(HasHost(s, k, e) && HasScripts(s, k, e))) && (!v.done ==> v.host.Some?)
            && v.m.ready == m.ready && v.m.providerID == m.providerID
  {
    if e.fetched.Some? {
      var a := s.hosts[e.fetched.value];
      assert WithPaused(a, false) == a.(notes := WithPaused(a, false).notes);
    }
    hide WithPaused, BaseVersion;
  }

  lemma StatusBeforeNode(w: World, s: System, k: Key, e: MachineEnv)
    requires Normal(s, k, e)
    ensures HandedOver(w, s, k, e).m.status == (if !Started(s, k, e) then s.machines[k].status
                                                else if !e.infraReady then NotReady(WaitingForClusterInfrastructure)
                                                else if k !in s.dataSecret then NotReady(WaitingForBootstrapData)
                                                else if e.fetched.Some? || e.stop == AtReserve then s.machines[k].status
                                                else if e.pick.None? then NotReady(HostsUnavailable)
                                                else NotReady(InstallationSecretNotAvailable))
  {
    hide WithPaused, BaseVersion, NoteInfo, GiveInstall, GiveUninstall;
  }

  /** What a normal reconcile leaves in the ByoMachine and on the node. */
  predicate Reports(s: System, k: Key, e: MachineEnv, m: Machine, nodes: map<Key, string>)
    requires k in s.machines
  {
    var a, n := s.machines[k], NodeKey(s.machines[k], e);
    && m == a.(finalizer := true, status := m.status, ready := m.ready, providerID := m.providerID, hostInfo := m.hostInfo)
    && m.hostInfo == (if a.hostInfo == "" && HasHost(s, k, e) then s.hosts[Target(e).value].details else a.hostInfo)
    && if Identifies(s, k, e) then
         && m.ready && m.status == HostReady && m.providerID == (if s.nodes[n] == "" then ProviderId.Generate(n.name, e.suffix) else s.nodes[n])
         && nodes == s.nodes[n := m.providerID]
       else
         && m.ready == a.ready && m.providerID == a.providerID && nodes == s.nodes
         && m.status == (if !Started(s, k, e) then a.status
                         else if !e.infraReady then NotReady(WaitingForClusterInfrastructure)
                         else if k !in s.dataSecret then NotReady(WaitingForBootstrapData)
                         else if e.fetched.Some? || e.stop == AtReserve then a.status
                         else if e.pick.None? then NotReady(HostsUnavailable)
                         else NotReady(InstallationSecretNotAvailable))
  }

  lemma InfoBeforeNode(w: World, s: System, k: Key, e: MachineEnv)
    requires Normal(s, k, e)
    ensures var m := HandedOver(w, s, k, e).m;
            m.hostInfo == (if s.machines[k].hostInfo == "" && HasHost(s, k, e) then s.hosts[Target(e).value].details else s.machines[k].hostInfo)
  {
    if e.fetched.Some? {
      var a := s.hosts[e.fetched.value];
      assert WithPaused(a, false) == a.(notes := WithPaused(a, false).notes);
    }
    hide WithPaused, BaseVersion;
  }

  lemma ViewReports(w: World, s: System, k: Key, e: MachineEnv)
    requires Normal(s, k, e)
    ensures var v, n := NormalView(w, s, k, e), NodeKey(s.machines[k], e);
            Reports(s, k, e, v.m, if v.node.Some? then s.nodes[n := v.node.value] else s.nodes)
  {
    hide HandedOver, NormalView, HasHost, HasScripts, Started, ProviderId.Accepts, ProviderId.Generate;
    BeforeNode(w, s, k, e);
    StatusBeforeNode(w, s, k, e);
    InfoBeforeNode(w, s, k, e);
    HandedOverNode(w, s, k, e);
    NormalMachine(w, s, k, e);
    var n := NodeKey(s.machines[k], e);
    assert n in s.nodes ==> s.nodes[n := s.nodes[n]] == s.nodes;
  }

  /** After a normal reconcile whose patch arrives the condition says how far it came: infrastructure not
      ready, no bootstrap data, no host, reserved just now, or ready; the machine is ready with the ID of
      its node if and only if the reconcile came to its end. */
  lemma ReconcileReports(w: World, s: System, k: Key, e: MachineEnv)
    requires Normal(s, k, e) && FetchedOk(w, s, k, e) && PickOk(s, k, e)
    ensures var t := MachinePass(w, s, k, e);
            if e.lost then t.machines == s.machines else k in t.machines && Reports(s, k, e, t.machines[k], t.nodes)
  {
    hide NormalView, WriteBack, Reports, FetchedOk, PickOk;
    ViewReports(w, s, k, e);
    var v := NormalView(w, s, k, e);
    assert PassView(w, s, k, e) == v;
    NormalMachine(w, s, k, e);
    WriteBackMachines(s, k, e, v);
    WriteBackNodes(s, k, e, v);
  }

  /** A node that carries an ID which does not pass the check keeps it, and the machine does not become
      ready. */
  lemma RefusedIdStops(w: World, s: System, k: Key, e: MachineEnv)
    requires Normal(s, k, e) && FetchedOk(w, s, k, e) && PickOk(s, k, e)
    requires var n := NodeKey(s.machines[k], e); n in s.nodes && s.nodes[n] != "" && !ProviderId.Accepts(n.name, s.nodes[n])
    ensures var t := MachinePass(w, s, k, e);
            t.nodes == s.nodes && k in t.machines && t.machines[k].ready == s.machines[k].ready && t.machines[k].providerID == s.machines[k].providerID
  {
    hide NormalView, WriteBack, HasHost, HasScripts, Started, FetchedOk, PickOk, ProviderId.Accepts, ProviderId.Generate;
    ViewReports(w, s, k, e);
    var v := NormalView(w, s, k, e);
    assert PassView(w, s, k, e) == v;
    WriteBackMachines(s, k, e, v);
    WriteBackNodes(s, k, e, v);
  }

  // ---------------------------------------------------------------- the host and the config

  /** The config of the machine is ready and offers the script. */
  predicate Offers(s: System, k: Key, id: Option<SecretId>) {
    k in s.configs && s.configs[k].ready && id.Some?
  }

  /** What a normal reconcile does to the host that it has found: it ends the pause, and gives it the two
      references that it lacks if the machine needs them, the gates are open, and the ready config has
      them; the second only behind the first. */
  predicate Handled(s: System, k: Key, e: MachineEnv, a: Host, b: Host)
    requires k in s.machines
  {
    var gives := HasHost(s, k, e) && s.machines[k].installer && k in s.configs;
    && b == a.(notes := b.notes, installSecret := b.installSecret, uninstallSecret := b.uninstallSecret)
    && b.notes == (if e.stop == AtUnpause then a.notes else a.notes - {Paused})
    && b.installSecret == (if a.installSecret.None? && gives && Offers(s, k, s.configs[k].install) && e.stop != AtInstall
                           then s.configs[k].install else a.installSecret)
    && b.uninstallSecret == (if a.uninstallSecret.None? && b.installSecret.Some? && gives && Offers(s, k, s.configs[k].uninstall) && e.stop != AtUninstall
                             then s.configs[k].uninstall else a.uninstallSecret)
  }

  lemma ViewHandles(w: World, s: System, k: Key, e: MachineEnv)
    requires Normal(s, k, e) && e.fetched.Some?
    ensures var x := HandedOver(w, s, k, e).host; x.Some? && Handled(s, k, e, s.hosts[e.fetched.value], x.value)
  {
    hide BaseVersion;
  }

  lemma ReconcileHandles(w: World, s: System, k: Key, e: MachineEnv)
    requires Normal(s, k, e) && e.fetched.Some? && FetchedOk(w, s, k, e) && PickOk(s, k, e)
    ensures var t, h := MachinePass(w, s, k, e), e.fetched.value;
            h in t.hosts && Handled(s, k, e, s.hosts[h], t.hosts[h]) && t.hosts == s.hosts[h := t.hosts[h]]
  {
    hide HandedOver, NormalView, MachinePass, Handled, FetchedOk, PickOk, UpdateNode;
    ViewHandles(w, s, k, e);
    HandedOverNode(w, s, k, e);
    PassHosts(w, s, k, e);
  }

  /** A normal reconcile makes a config for its machine if and only if the machine has an installer and no
      config yet and the calls before succeed; the new config is empty, and one that exists is left
      alone. */
  lemma ConfigMadeIff(w: World, s: System, k: Key, e: MachineEnv)
    requires Normal(s, k, e) && FetchedOk(w, s, k, e) && PickOk(s, k, e)
    ensures var t := MachinePass(w, s, k, e);
            && (k in s.configs ==> t.configs == s.configs)
            && (k !in s.configs ==> (k in t.configs <==> s.machines[k].installer && Started(s, k, e)))
            && (k !in s.configs && k in t.configs ==> t.configs == s.configs[k := InstallerConfig(false, false, false, None, None)])
  {
    hide FetchedOk, PickOk, WriteBack, UpdateNode;
    ViewConfig(w, s, k, e);
    hide NormalView;
    WriteBackFrame(s, k, e, PassView(w, s, k, e));
  }

  lemma ViewConfig(w: World, s: System, k: Key, e: MachineEnv)
    requires Normal(s, k, e)
    ensures var v := NormalView(w, s, k, e);
            v.config == (if k in s.configs then Some(s.configs[k])
                         else if s.machines[k].installer && Started(s, k, e) then Some(NEW_CONFIG) else None)
  {
    hide Reserve, NoteInfo, GiveInstall, GiveUninstall, UpdateNode;
  }

  // ---------------------------------------------------------------- pause, mark and deletion

  /** A paused reconcile changes nothing of a machine but its condition, and pauses the host it finds
      unless that fails. */
  lemma PauseReports(w: World, s: System, k: Key, e: MachineEnv)
    requires k in s.machines && FetchedOk(w, s, k, e) && PickOk(s, k, e) && e.resolvable && e.paused && !e.lost
    requires s.machines[k].deleting ==> s.machines[k].finalizer || s.machines[k].foreign
    ensures var t := MachinePass(w, s, k, e);
            && k in t.machines && t.machines[k] == s.machines[k].(status := NotReady(ResourcePaused))
            && t.nodes == s.nodes && t.configs == s.configs
            && (e.fetched.None? || e.stop == AtUnpause ==> t.hosts == s.hosts)
            && (e.fetched.Some? && e.stop != AtUnpause ==>
                  && e.fetched.value in s.hosts && t.hosts == s.hosts[e.fetched.value := t.hosts[e.fetched.value]]
                  && var a, b := s.hosts[e.fetched.value], t.hosts[e.fetched.value];
                     b == a.(notes := b.notes) && Paused in b.notes && b.notes - {Paused} == a.notes - {Paused})
  {
    hide WriteBack;
    var v := PassView(w, s, k, e);
    PassHosts(w, s, k, e);
    WriteBackFrame(s, k, e, v);
    WriteBackMachines(s, k, e, v);
    WriteBackNodes(s, k, e, v);
  }

  /** The mark takes the two labels of the management plane off the host, unless an upgrade is under way,
      and changes nothing else of it. */
  lemma MarkWrites(w: World, s: System, k: Key, e: MachineEnv, h: Key)
    requires k in s.machines && FetchedOk(w, s, k, e) && PickOk(s, k, e) && Marks(s, k, e) && e.fetched == Some(h)
    ensures var t := MachinePass(w, s, k, e);
            && h in s.hosts && h in t.hosts
            && var a, b := s.hosts[h], t.hosts[h];
               && b == a.(labels := b.labels, notes := b.notes) && Cleanup in b.notes && b.notes - {Cleanup} == a.notes - {Cleanup}
               && b.labels - {Pf9Cluster, Pf9ClusterCP} == a.labels - {Pf9Cluster, Pf9ClusterCP}
               && (e.upgrading ==> b.labels == a.labels) && (!e.upgrading ==> Pf9Cluster !in b.labels && Pf9ClusterCP !in b.labels)
  {
    hide WriteBack, PickOk;
    PassHosts(w, s, k, e);
  }

  /** A reconcile of a machine that is being deleted takes its finalizer away if and only if the machine
      has no host, or its host is marked in the same reconcile; the machine is gone then unless somebody
      else holds it. */
  lemma DeletionEndsIff(w: World, s: System, k: Key, e: MachineEnv)
    requires k in s.machines && FetchedOk(w, s, k, e) && PickOk(s, k, e) && s.machines[k].deleting && s.machines[k].finalizer
    requires e.resolvable && !e.paused && !e.lost
    ensures var t := MachinePass(w, s, k, e);
            && (k in t.machines && t.machines[k].finalizer <==> e.fetched.Some? && e.stop != Complete)
            && (k in t.machines <==> s.machines[k].foreign || (e.fetched.Some? && e.stop != Complete))
            && (k in t.machines ==> t.machines[k] == s.machines[k].(finalizer := t.machines[k].finalizer))
            && (e.fetched.Some? && !(k in t.machines && t.machines[k].finalizer) ==>
                  e.fetched.value in t.hosts && Cleanup in t.hosts[e.fetched.value].notes)
  {
    hide WriteBack;
    var v := PassView(w, s, k, e);
    PassHosts(w, s, k, e);
    WriteBackMachines(s, k, e, v);
  }

  // ---------------------------------------------------------------- over whole runs

  /** The node that a machine's host becomes. */
  function NodeFor(s: System, k: Key): Key
    requires k in s.machines && k in s.attachedTo
  {
    Key(s.machines[k].cluster, s.attachedTo[k].name)
  }

  predicate ClaimsReady(m: Machine) {
    m.ready || m.providerID != "" || m.status == HostReady
  }

  /** A machine that claims to be ready, in whatever field, is: it has the ID of its host's node. */
  predicate Identified(s: System, k: Key) {
    k in s.machines && ClaimsReady(s.machines[k]) ==>
      && s.machines[k].ready && s.machines[k].providerID != "" && k in s.attachedTo
      && NodeFor(s, k) in s.nodes && s.nodes[NodeFor(s, k)] == s.machines[k].providerID
  }

  lemma TargetIsOwn(w: World, s: System, k: Key, e: MachineEnv)
    requires Inv(w, s) && Live(s, k) && FetchedOk(w, s, k, e) && PickOk(s, k, e) && HasHost(s, k, e)
    ensures e.fetched.Some? ==> k in s.attachedTo && s.attachedTo[k] == e.fetched.value
    ensures e.fetched.None? ==> Attaches(s, k, e) && k !in s.attachedTo
  {
    Observations(w, s, k, e);
    if e.fetched.Some? { assert HostOk(w, s, e.fetched.value, s.hosts[e.fetched.value]); }
    hide Inv;
  }

  lemma GeneratedIsSome(name: string, suffix: string)
    ensures ProviderId.Generate(name, suffix) != ""
  {
    ProviderId.GenerateParts(name, suffix);
  }

  lemma OwnIdentified(w: World, s: System, k: Key, e: MachineEnv)
    requires Inv(w, s) && Identified(s, k) && Normal(s, k, e) && FetchedOk(w, s, k, e) && PickOk(s, k, e) && !e.lost
    ensures Identified(MachinePass(w, s, k, e), k)
  {
    hide Inv, MachinePass, PassView, HasScripts, FetchedOk, PickOk, ProviderId.Accepts, ProviderId.Generate;
    ReconcileReports(w, s, k, e);
    PassHosts(w, s, k, e);
    assert Attaches(s, k, e) ==> HasHost(s, k, e);
    if HasHost(s, k, e) { TargetIsOwn(w, s, k, e); }
    GeneratedIsSome(NodeKey(s.machines[k], e).name, e.suffix);
  }

  /** The machine claims no more than before, and keeps its host. */
  predicate SameClaims(s: System, t: System, k: Key) {
    && (k in t.machines ==>
          || !ClaimsReady(t.machines[k])
          || (k in s.machines && t.machines[k].cluster == s.machines[k].cluster && t.machines[k].ready == s.machines[k].ready
              && t.machines[k].providerID == s.machines[k].providerID && (t.machines[k].status == HostReady ==> s.machines[k].status == HostReady)))
    && (k in s.machines && k in s.attachedTo ==> k in t.attachedTo && t.attachedTo[k] == s.attachedTo[k] && NodeMoves(s, t, NodeFor(s, k)))
  }

  lemma ClaimsStay(s: System, t: System, k: Key)
    requires Identified(s, k) && SameClaims(s, t, k)
    ensures Identified(t, k)
  {
    hide ProviderId.Accepts;
  }

  lemma PutClaims(s: System, x: Key, m: Machine, k: Key)
    requires x in s.machines && m == s.machines[x].(deleting := m.deleting, foreign := m.foreign)
    ensures SameClaims(s, PutMachine(s, x, m), k)
  {
    hide ProviderId.Accepts;
  }

  lemma OutsideClaims(w: World, s: System, step: Step, k: Key)
    requires Enabled(w, s, step) && IsOutside(step)
    ensures SameClaims(s, Apply(w, s, step), k)
  {
    hide MachinePass, HostPass, ConfigPass, ApplyAgent, PutMachine, PutHost, PutConfig, TagFree, Agree, ProviderId.Accepts;
    if step.DeleteMachine? { PutClaims(s, step.k, s.machines[step.k].(deleting := true), k); }
    else if step.DropForeign? { PutClaims(s, step.k, s.machines[step.k].(foreign := false), k); }
  }

  /** A reconcile of another machine, a paused one, one of a machine that is being deleted, or one whose
      patch is lost. */
  lemma ReconcileClaims(w: World, s: System, x: Key, e: MachineEnv, k: Key)
    requires Inv(w, s) && x in s.machines && FetchedOk(w, s, x, e) && PickOk(s, x, e) && ProviderId.LegalSuffix(e.suffix)
    requires x != k || e.lost || !Normal(s, k, e)
    ensures SameClaims(s, MachinePass(w, s, x, e), k)
  {
    hide Inv, PassView, WriteBack, ProviderId.Accepts, ProviderId.LegalName, ProviderId.LegalSuffix;
    LegalHosts(w, s);
    if k in s.machines && k in s.attachedTo { ReconcileNodes(w, s, x, e, NodeFor(s, k)); }
    Observations(w, s, x, e);
    if e.resolvable {
      PassHosts(w, s, x, e);
      WriteBackMachines(s, x, e, PassView(w, s, x, e));
      if x == k && !e.lost { RestingView(w, s, k, e); }
    }
  }

  lemma RestingView(w: World, s: System, k: Key, e: MachineEnv)
    requires k in s.machines && FetchedOk(w, s, k, e) && PickOk(s, k, e) && e.resolvable && (e.paused || s.machines[k].deleting)
    ensures var m := PassView(w, s, k, e).m;
            m == s.machines[k].(finalizer := m.finalizer, status := m.status) && (m.status == HostReady ==> s.machines[k].status == HostReady)
  {
    hide NormalView;
  }

  lemma StepIdentified(w: World, s: System, step: Step, k: Key)
    requires Inv(w, s) && Enabled(w, s, step) && Identified(s, k)
    ensures Identified(Apply(w, s, step), k)
  {
    hide Inv, Enabled, Apply, MachinePass, HostPass, ConfigPass, ApplyAgent, Identified, SameClaims, FetchedOk, PickOk, ProviderId.LegalSuffix;
    PassApplies(w, s, step);
    if step.MachineStep? && step.k == k && Normal(s, k, step.env) && !step.env.lost {
      OwnIdentified(w, s, k, step.env);
    } else {
      if IsOutside(step) { OutsideClaims(w, s, step, k); }
      else if step.MachineStep? {
        assert Normal(s, step.k, step.env) || step.env.paused || s.machines[step.k].deleting || !step.env.resolvable by { SeenHosts(w, s, step.k, step.env); }
        ReconcileClaims(w, s, step.k, step.env, k);
      }
      else { RestClaims(w, s, step, k); }
      ClaimsStay(s, Apply(w, s, step), k);
    }
  }

  lemma SeenHosts(w: World, s: System, k: Key, e: MachineEnv)
    requires FetchedOk(w, s, k, e) && PickOk(s, k, e)
    ensures (e.fetched.Some? ==> e.fetched.value in s.hosts) && (e.pick.Some? ==> e.pick.value in s.hosts)
  {
  }

  lemma RestClaims(w: World, s: System, step: Step, k: Key)
    requires Enabled(w, s, step) && (step.HostStep? || step.ConfigStep? || step.AgentStep?)
    ensures SameClaims(s, Apply(w, s, step), k)
  {
    hide Enabled, Apply, HostPass, ConfigPass, ApplyAgent, ProviderId.Accepts;
    PassApplies(w, s, step);
    if step.AgentStep? && k in s.machines && k in s.attachedTo {
      AgentNodes(s, step.h, step.skip, step.outcomes, step.lost, NodeFor(s, k));
    }
  }

  /** In every run, under all faults: a machine that has a provider ID, or is marked ready, or says so in
      its condition, is marked ready, has a host, and carries the ID of that host's node. */
  lemma {:induction false} ReadyMeansIdentified(w: World, r: Run, i: nat, k: Key)
    requires Sound(w) && Valid(w, r) && i < |r.states|
    ensures Identified(r.states[i], k)
  {
    hide Inv, Apply, Enabled;
    if i > 0 {
      hide Identified;
      ReadyMeansIdentified(w, r, i - 1, k);
      Invariant(w, r, i - 1);
      assert Next(w, r, i - 1);
      StepIdentified(w, r.states[i - 1], r.steps[i - 1], k);
    }
  }
}
