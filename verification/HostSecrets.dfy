/** The two script references of a host: the uninstall secret it names is in the store, no other
    host names it, and an install secret is accompanied by an uninstall secret. Each of the last
    two claims has one fault that breaks it. */
module HostSecrets {
  import opened Objects
  import opened Agent
  import opened Manager
  import opened Protocol
  import opened Effects
  import opened Reservation
  import opened HostMoves

  // ---------------------------------------------------------------- what a reconcile hands over

  /** The reference of the machine's config, once that config is ready. */
  predicate OfReadyConfig(s: System, k: Key, id: Option<SecretId>, of: Option<SecretId>) {
    k in s.machines && !s.machines[k].deleting && k in s.configs && s.configs[k].ready && id == of
  }

  /** How a reconcile may change the references of its target. */
  lemma ReferencesMove(w: World, s: System, k: Key, e: MachineEnv)
    requires k in s.machines && FetchedOk(w, s, k, e) && PickOk(s, k, e) && e.resolvable
    ensures var b := PassView(w, s, k, e).host;
            b.Some? ==>
              && Target(e).Some? && Target(e).value in s.hosts
              && var a := s.hosts[Target(e).value];
                 && (b.value.installSecret == a.installSecret
                     || (k in s.configs && OfReadyConfig(s, k, b.value.installSecret, s.configs[k].install)))
                 && (b.value.uninstallSecret == a.uninstallSecret
                     || (k in s.configs && OfReadyConfig(s, k, b.value.uninstallSecret, s.configs[k].uninstall)))
  {
    ViewFacts(w, s, k, e);
    if !e.paused && !s.machines[k].deleting { NormalHost(w, s, k, e); }
    hide NormalView, BaseVersion;
  }

  /** The reconcile hands over the install secret and stops before the uninstall secret. */
  predicate Splits(s: System, k: Key, e: MachineEnv, h: Key) {
    && k in s.machines && !s.machines[k].deleting && s.machines[k].installer
    && e.resolvable && !e.paused && e.infraReady && k in s.dataSecret
    && Target(e) == Some(h) && h in s.hosts
    && s.hosts[h].installSecret.None? && s.hosts[h].uninstallSecret.None?
    && k in s.configs && s.configs[k].ready
    && e.stop == AtUninstall
  }

  predicate PairedHost(host: Host) {
    host.installSecret.Some? ==> host.uninstallSecret.Some?
  }

  lemma NormalPairs(w: World, s: System, k: Key, e: MachineEnv)
    requires Normal(s, k, e) && (e.fetched.Some? || Attaches(s, k, e))
    requires k in s.configs && s.configs[k].ready ==> s.configs[k].install.Some? && s.configs[k].uninstall.Some?
    requires PairedHost(s.hosts[Target(e).value])
    ensures var x := NormalView(w, s, k, e).host;
            x.Some? && (PairedHost(x.value) <==> !Splits(s, k, e, Target(e).value))
  {
    hide UpdateNode, NoteInfo, BaseVersion;
  }

  // ---------------------------------------------------------------- the named secret is stored

  predicate Stored(s: System, h: Key) {
    h in s.hosts && s.hosts[h].uninstallSecret.Some? ==> s.hosts[h].uninstallSecret.value in s.secrets
  }

  /** The ByoHost controller stops between deleting the secret and clearing the reference. */
  predicate Dangles(s: System, step: Step, h: Key) {
    step.HostStep? && step.h == h && step.cut && h in s.hosts && Collects(s.hosts[h])
  }

  /** No two hosts name the same uninstall secret. */
  lemma NamesDiffer(w: World, s: System, h: Key, x: Key)
    requires Inv(w, s) && h in s.hosts && x in s.hosts && h != x && s.hosts[h].uninstallSecret.Some?
    ensures s.hosts[h].uninstallSecret != s.hosts[x].uninstallSecret
  {
    assert HostOk(w, s, h, s.hosts[h]) && HostOk(w, s, x, s.hosts[x]);
  }

  lemma ReconcileStored(w: World, s: System, k: Key, e: MachineEnv, h: Key)
    requires Inv(w, s) && k in s.machines && FetchedOk(w, s, k, e) && PickOk(s, k, e) && Stored(s, h)
    ensures Stored(MachinePass(w, s, k, e), h)
  {
    if k in s.configs { assert ConfigOk(w, s, k, s.configs[k]); }
    hide Inv;
    if e.resolvable { ResolvedStored(w, s, k, e, h); }
    hide MachinePass;
  }

  lemma ResolvedStored(w: World, s: System, k: Key, e: MachineEnv, h: Key)
    requires k in s.machines && FetchedOk(w, s, k, e) && PickOk(s, k, e) && e.resolvable && Stored(s, h)
    requires Live(s, k) && k in s.configs && s.configs[k].ready ==> s.configs[k].uninstall == Some(UninstallOf(k)) && UninstallOf(k) in s.secrets
    ensures Stored(MachinePass(w, s, k, e), h)
  {
    hide PassView, WriteBack;
    ReferencesMove(w, s, k, e);
    PassHosts(w, s, k, e);
    WriteBackFrame(s, k, e, PassView(w, s, k, e));
  }

  /** Collecting one host's secret takes no other host's. A host's own is taken without the
      reference in exactly one case. */
  lemma CollectStored(w: World, s: System, x: Key, cut: bool, h: Key)
    requires Inv(w, s) && x in s.hosts && Stored(s, h)
    ensures Stored(HostPass(s, x, cut), h) <==> !Dangles(s, HostStep(x, cut), h)
  {
    if h in s.hosts && h != x && s.hosts[h].uninstallSecret.Some? { NamesDiffer(w, s, h, x); }
    hide Inv;
  }

  lemma OutsideStored(w: World, s: System, step: Step, h: Key)
    requires Inv(w, s) && Enabled(w, s, step) && IsOutside(step) && Stored(s, h)
    ensures Stored(Apply(w, s, step), h)
  {
    if h in s.hosts { assert HostOk(w, s, h, s.hosts[h]); }
    if step.CollectSecret? { assert SecretOk(step.id, s.secrets[step.id]); }
    hide Inv, MachinePass, ConfigPass, HostPass, ApplyAgent, PutConfig, PutMachine;
    OutsideMoves(w, s, step, h);
  }

  lemma ConfigPassStored(w: World, s: System, k: Key, blocked: bool, stop: ConfigStop, lost: bool, h: Key)
    requires Stored(s, h)
    ensures Stored(ConfigPass(w, s, k, blocked, stop, lost), h)
  {
    hide PutConfig;
  }

  lemma AgentStored(s: System, x: Key, skip: bool, o: Outcomes, lost: bool, h: Key)
    requires x in s.hosts && Stored(s, h)
    ensures Stored(ApplyAgent(s, x, skip, o, lost), h)
  {
    AgentMoves(s.hosts[x], skip, o);
    hide AgentPass, ApplyAgent;
  }

  lemma StepStored(w: World, s: System, step: Step, h: Key)
    requires Inv(w, s) && Enabled(w, s, step) && Stored(s, h) && !Dangles(s, step, h)
    ensures Stored(Apply(w, s, step), h)
  {
    hide MachinePass, ConfigPass, HostPass, ApplyAgent;
    if IsOutside(step) { OutsideStored(w, s, step, h); hide Inv; }
    else if step.MachineStep? { ReconcileStored(w, s, step.k, step.env, h); hide Inv; }
    else if step.HostStep? { CollectStored(w, s, step.h, step.cut, h); hide Inv; }
    else if step.ConfigStep? { ConfigPassStored(w, s, step.k, step.blocked, step.stop, step.lostConfig, h); hide Inv; }
    else { AgentStored(s, step.h, step.skip, step.outcomes, step.lost, h); hide Inv; }
  }

  /** In every run in which the ByoHost controller is not cut short on this host, the uninstall
      secret the host names is in the store and holds an uninstall script, and no other host names
      it: neither the collection of another host's secret nor garbage collection removes it. */
  lemma {:induction false} UninstallSecretSafe(w: World, r: Run, i: nat, h: Key)
    requires Sound(w) && Valid(w, r) && i < |r.states|
    requires forall j :: 0 <= j < i ==> !Dangles(r.states[j], r.steps[j], h)
    ensures Stored(r.states[i], h)
    ensures var s := r.states[i];
            h in s.hosts && s.hosts[h].uninstallSecret.Some? ==>
              && s.secrets[s.hosts[h].uninstallSecret.value].payload.Uninstall?
              && forall x :: x in s.hosts && x != h ==> s.hosts[x].uninstallSecret != s.hosts[h].uninstallSecret
  {
    hide Apply, Enabled, Dangles;
    if i > 0 {
      UninstallSecretSafe(w, r, i - 1, h);
      Invariant(w, r, i - 1);
      assert Next(w, r, i - 1);
      StepStored(w, r.states[i - 1], r.steps[i - 1], h);
    }
    Invariant(w, r, i);
    NamedByOne(w, r.states[i], h);
    hide Inv;
  }

  lemma NamedByOne(w: World, s: System, h: Key)
    requires Inv(w, s) && Stored(s, h)
    ensures h in s.hosts && s.hosts[h].uninstallSecret.Some? ==>
              && s.secrets[s.hosts[h].uninstallSecret.value].payload.Uninstall?
              && forall x :: x in s.hosts && x != h ==> s.hosts[x].uninstallSecret != s.hosts[h].uninstallSecret
  {
    if h in s.hosts && s.hosts[h].uninstallSecret.Some? {
      assert HostOk(w, s, h, s.hosts[h]);
      var id := s.hosts[h].uninstallSecret.value;
      assert SecretOk(id, s.secrets[id]);
      forall x | x in s.hosts && x != h ensures s.hosts[x].uninstallSecret != s.hosts[h].uninstallSecret { NamesDiffer(w, s, h, x); }
    }
  }

  // ---------------------------------------------------------------- install comes with uninstall

  predicate Paired(s: System, h: Key) {
    h in s.hosts ==> PairedHost(s.hosts[h])
  }

  lemma ViewPairs(w: World, s: System, k: Key, e: MachineEnv)
    requires Inv(w, s) && k in s.machines && FetchedOk(w, s, k, e) && PickOk(s, k, e) && e.resolvable
    requires Target(e).Some? ==> PairedHost(s.hosts[Target(e).value])
    ensures var b := PassView(w, s, k, e).host;
            if b.Some? then Target(e).Some? && (PairedHost(b.value) <==> !Splits(s, k, e, Target(e).value))
            else Target(e).Some? ==> !Splits(s, k, e, Target(e).value)
  {
    if k in s.configs { assert ConfigOk(w, s, k, s.configs[k]); }
    hide Inv;
    ViewFacts(w, s, k, e);
    if !e.paused && !s.machines[k].deleting && (e.fetched.Some? || Attaches(s, k, e)) { NormalPairs(w, s, k, e); }
    hide NormalView;
  }

  /** A reconcile keeps a host paired if and only if it is not cut between the two references. */
  lemma ReconcilePairs(w: World, s: System, k: Key, e: MachineEnv, h: Key)
    requires Inv(w, s) && k in s.machines && FetchedOk(w, s, k, e) && PickOk(s, k, e) && Paired(s, h)
    ensures Paired(MachinePass(w, s, k, e), h) <==> !Splits(s, k, e, h)
  {
    hide PassView, WriteBack, Splits;
    if e.resolvable {
      PassHosts(w, s, k, e);
      if Target(e) == Some(h) && h in s.hosts { ViewPairs(w, s, k, e); } else { OffTarget(s, k, e, h); }
    } else { OffTarget(s, k, e, h); }
    hide Inv;
  }

  lemma OffTarget(s: System, k: Key, e: MachineEnv, h: Key)
    requires !e.resolvable || Target(e) != Some(h) || h !in s.hosts
    ensures !Splits(s, k, e, h)
  {
  }

  lemma AgentPairs(s: System, x: Key, skip: bool, o: Outcomes, lost: bool, h: Key)
    requires x in s.hosts && Paired(s, h)
    ensures Paired(ApplyAgent(s, x, skip, o, lost), h)
  {
    AgentMoves(s.hosts[x], skip, o);
    hide AgentPass, ApplyAgent;
  }

  lemma OutsidePairs(w: World, s: System, step: Step, h: Key)
    requires Enabled(w, s, step) && IsOutside(step) && Paired(s, h)
    ensures Paired(Apply(w, s, step), h)
  {
    hide Apply;
    OutsideMoves(w, s, step, h);
  }

  lemma StepPairs(w: World, s: System, step: Step, h: Key)
    requires Inv(w, s) && Enabled(w, s, step) && Paired(s, h)
    requires step.MachineStep? ==> !Splits(s, step.k, step.env, h)
    ensures Paired(Apply(w, s, step), h)
  {
    hide MachinePass, ConfigPass, HostPass, ApplyAgent, Splits;
    if IsOutside(step) { OutsidePairs(w, s, step, h); hide Inv; }
    else if step.MachineStep? { ReconcilePairs(w, s, step.k, step.env, h); hide Inv; }
    else if step.HostStep? { HostPassPairs(w, s, step.h, step.cut, h); hide Inv; }
    else if step.AgentStep? { AgentPairs(s, step.h, step.skip, step.outcomes, step.lost, h); hide Inv; }
  }

  lemma HostPassPairs(w: World, s: System, x: Key, cut: bool, h: Key)
    requires Inv(w, s) && x in s.hosts && Paired(s, h)
    ensures Paired(HostPass(s, x, cut), h)
  {
    assert HostOk(w, s, x, s.hosts[x]);
    hide Inv, HostPass;
  }

  lemma {:induction false} InstallComesWithUninstall(w: World, r: Run, i: nat, h: Key)
    requires Sound(w) && Valid(w, r) && i < |r.states|
    requires forall j :: 0 <= j < i && r.steps[j].MachineStep? ==> !Splits(r.states[j], r.steps[j].k, r.steps[j].env, h)
    ensures Paired(r.states[i], h)
  {
    hide Inv, Apply, Enabled, Splits;
    if i > 0 {
      InstallComesWithUninstall(w, r, i - 1, h);
      Invariant(w, r, i - 1);
      assert Next(w, r, i - 1);
      StepPairs(w, r.states[i - 1], r.steps[i - 1], h);
    }
  }
}
