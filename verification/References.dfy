/** Where a host's references to its two scripts come from, and why a script that is gone stays gone. */
module References {
  import opened Objects
  import opened Agent
  import opened Manager
  import opened Protocol
  import opened Effects
  import opened Reservation
  import opened HostMoves
  import opened HostSecrets
  import opened Lifetimes

  /** The script was made by a config that is ready, or gone for good. */
  predicate MadeBy(s: System, id: SecretId) {
    (id.InstallOf? || id.UninstallOf?) && ReadyOrGone(s, id.config)
  }

  /** Both references of a host name scripts that are not made again. */
  predicate MadeOnce(s: System, host: Host) {
    && (host.installSecret.Some? ==> host.installSecret.value.InstallOf? && MadeBy(s, host.installSecret.value))
    && (host.uninstallSecret.Some? ==> host.uninstallSecret.value.UninstallOf? && MadeBy(s, host.uninstallSecret.value))
  }

  // ---------------------------------------------------------------- the step

  /** The references of a host after a step are those it had, or those of a ready config, or none. */
  predicate Referring(s: System, was: Option<Host>, now: Host, k: Key) {
    && (now.installSecret.Some? ==>
          || (was.Some? && now.installSecret == was.value.installSecret)
          || (ReadyOrGone(s, k) && now.installSecret == Some(InstallOf(k))))
    && (now.uninstallSecret.Some? ==>
          || (was.Some? && now.uninstallSecret == was.value.uninstallSecret)
          || (ReadyOrGone(s, k) && now.uninstallSecret == Some(UninstallOf(k))))
  }

  lemma ReconcileRefers(w: World, s: System, k: Key, e: MachineEnv, h: Key)
    requires k in s.machines && FetchedOk(w, s, k, e) && PickOk(s, k, e)
    requires k in s.configs ==> ConfigOk(w, s, k, s.configs[k])
    ensures var t := MachinePass(w, s, k, e); h in t.hosts ==> Referring(s, Get(s.hosts, h), t.hosts[h], k)
  {
    hide PassView, WriteBack;
    if e.resolvable {
      ReferencesMove(w, s, k, e);
      PassHosts(w, s, k, e);
      hide MachinePass, FetchedOk, PickOk;
    } else {
      Unresolved(w, s, k, e);
      hide MachinePass, FetchedOk, PickOk;
    }
  }

  lemma StepRefers(w: World, s: System, step: Step, h: Key)
    requires Inv(w, s) && Enabled(w, s, step)
    ensures var t := Apply(w, s, step);
            h in t.hosts ==> exists k :: Referring(s, Get(s.hosts, h), t.hosts[h], k)
  {
    var t := Apply(w, s, step);
    hide Inv, MachinePass, HostPass, ConfigPass, ApplyAgent;
    if step.MachineStep? {
      assert step.k in s.configs ==> ConfigOk(w, s, step.k, s.configs[step.k]);
      ReconcileRefers(w, s, step.k, step.env, h);
    } else {
      OthersRefer(w, s, step, h);
    }
  }

  lemma OthersRefer(w: World, s: System, step: Step, h: Key)
    requires Enabled(w, s, step) && !step.MachineStep?
    ensures var t := Apply(w, s, step); h in t.hosts ==> Referring(s, Get(s.hosts, h), t.hosts[h], h)
  {
    hide MachinePass, ConfigPass, AgentPass, ReadyOrGone;
    if IsOutside(step) { OutsideMoves(w, s, step, h); hide Apply; }
    else if step.AgentStep? { AgentMoves(s.hosts[step.h], step.skip, step.outcomes); }
  }

  lemma MadeByKeeps(w: World, s: System, step: Step, id: SecretId)
    requires Inv(w, s) && Enabled(w, s, step) && MadeBy(s, id)
    ensures MadeBy(Apply(w, s, step), id)
  {
    assert id.config in s.configs ==> ConfigOk(w, s, id.config, s.configs[id.config]);
    hide Inv, Apply, Enabled;
    StepReadyOrGone(w, s, step, id.config);
  }

  lemma StepMadeOnce(w: World, s: System, step: Step, h: Key)
    requires Inv(w, s) && Enabled(w, s, step) && (h in s.hosts ==> MadeOnce(s, s.hosts[h]))
    ensures var t := Apply(w, s, step); h in t.hosts ==> MadeOnce(t, t.hosts[h])
  {
    var t := Apply(w, s, step);
    StepRefers(w, s, step, h);
    hide Inv, Apply, Enabled;
    if h in t.hosts {
      var host := t.hosts[h];
      if host.installSecret.Some? { MadeByKeeps(w, s, step, host.installSecret.value); }
      if host.uninstallSecret.Some? { MadeByKeeps(w, s, step, host.uninstallSecret.value); }
    }
  }

  lemma {:induction false} RunMadeOnce(w: World, r: Run, i: nat, h: Key)
    requires Sound(w) && Valid(w, r) && i < |r.states|
    ensures h in r.states[i].hosts ==> MadeOnce(r.states[i], r.states[i].hosts[h])
  {
    hide Inv, Apply, Enabled;
    if i > 0 {
      RunMadeOnce(w, r, i - 1, h);
      Invariant(w, r, i - 1);
      assert Next(w, r, i - 1);
      hide MadeOnce;
      StepMadeOnce(w, r.states[i - 1], r.steps[i - 1], h);
    }
  }

  // ---------------------------------------------------------------- gone for good

  /** A script that was made once and is gone does not come back. */
  lemma StaysGone(w: World, s: System, step: Step, id: SecretId)
    requires Enabled(w, s, step) && MadeBy(s, id) && id !in s.secrets
    ensures id !in Apply(w, s, step).secrets
  {
    hide MachinePass, HostPass, ConfigPass, ApplyAgent, PutConfig, PutMachine, PutHost, ReadyOrGone;
    if step.MachineStep? { ReconcileSecrets(w, s, step.k, step.env); }
    else if step.HostStep? { HostPassSecrets(s, step.h, step.cut); }
    else if step.ConfigStep? { ConfigPassSecrets(w, s, step.k, step.blocked, step.stop, step.lostConfig, id); }
  }

  lemma ConfigPassSecrets(w: World, s: System, x: Key, blocked: bool, stop: ConfigStop, lost: bool, id: SecretId)
    requires MadeBy(s, id) && id !in s.secrets
    ensures id !in ConfigPass(w, s, x, blocked, stop, lost).secrets
  {
    hide PutConfig;
  }

  lemma ReconcileSecrets(w: World, s: System, k: Key, e: MachineEnv)
    requires k in s.machines && FetchedOk(w, s, k, e) && PickOk(s, k, e)
    ensures MachinePass(w, s, k, e).secrets == s.secrets
  {
    hide PassView, WriteBack;
    if e.resolvable { WriteBackFrame(s, k, e, PassView(w, s, k, e)); }
  }

  lemma HostPassSecrets(s: System, h: Key, cut: bool)
    requires h in s.hosts
    ensures HostPass(s, h, cut).secrets.Keys <= s.secrets.Keys
  {
  }
}
