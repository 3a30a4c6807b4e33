/** What goes when it is no longer needed, and what stays behind: installer configs, install secrets,
    and the uninstall secrets, which nobody owns. */
module Leftovers {
  import opened Objects
  import opened Agent
  import opened Manager
  import opened Protocol
  import opened Effects
  import opened Reservation
  import opened HostMoves
  import opened HostSecrets
  import opened References
  import opened Schedules

  // ---------------------------------------------------------------- one reconcile

  /** The ByoHost controller deletes a secret if and only if it is the one that the host names, and the
      host is free and not marked; that the reconcile is cut behind the deletion makes no difference. */
  lemma CollectsIff(s: System, h: Key, cut: bool, id: SecretId)
    requires h in s.hosts
    ensures id in HostPass(s, h, cut).secrets <==>
            id in s.secrets && !(s.hosts[h].uninstallSecret == Some(id) && s.hosts[h].machineRef.None? && Cleanup !in s.hosts[h].notes)
    ensures id in HostPass(s, h, cut).secrets ==> HostPass(s, h, cut).secrets[id] == s.secrets[id]
  {
  }

  /** The scripts of the machine are generated in this reconcile of its config. */
  predicate Generates(w: World, s: System, k: Key, blocked: bool) {
    && k in s.configs && !s.configs[k].deleting && !s.configs[k].ready && !blocked
    && k in s.machines && s.machines[k].status == NotReady(InstallationSecretNotAvailable)
    && w.scripts(k, s.machines[k].hostInfo).Some?
  }

  /** A reconcile of a config stores the install script and then the uninstall script, as far as its
      writes succeed, if and only if the machine waits for scripts that can be generated; it touches no
      other secret. */
  lemma ConfigStores(w: World, s: System, k: Key, blocked: bool, stop: ConfigStop, lost: bool, id: SecretId)
    ensures var t := ConfigPass(w, s, k, blocked, stop, lost);
            if Generates(w, s, k, blocked) && id == InstallOf(k) && stop != BeforeInstall then
              id in t.secrets && t.secrets[id] == Secret(Some(k), Install(w.scripts(k, s.machines[k].hostInfo).value.install))
            else if Generates(w, s, k, blocked) && id == UninstallOf(k) && stop == Stored then
              id in t.secrets && t.secrets[id] == Secret(None, Uninstall(w.scripts(k, s.machines[k].hostInfo).value.uninstall))
            else
              (id in t.secrets <==> id in s.secrets) && (id in t.secrets ==> t.secrets[id] == s.secrets[id])
  {
  }

  /** A config that is being deleted goes with the next reconcile whose patch arrives; any other stays,
      gets its finalizer, and becomes ready if and only if both scripts are stored now. */
  lemma ConfigGoesIff(w: World, s: System, k: Key, blocked: bool, stop: ConfigStop)
    requires k in s.configs
    ensures var t := ConfigPass(w, s, k, blocked, stop, false);
            && (k in t.configs <==> !s.configs[k].deleting)
            && (k in t.configs ==> t.configs[k].finalizer && !t.configs[k].deleting)
            && (k in t.configs ==> (t.configs[k].ready <==> s.configs[k].ready || (Generates(w, s, k, blocked) && stop == Stored)))
    ensures ConfigPass(w, s, k, blocked, stop, true).configs == s.configs
  {
  }

  // ---------------------------------------------------------------- install secrets

  lemma GarbageGoes(w: World, s: System, k: Key) returns (steps: seq<Step>, t: System)
    requires Sound(w) && Inv(w, s) && k !in s.machines
    ensures Plays(w, s, steps, t) && Inv(w, t) && k !in t.configs && t.secrets == s.secrets && t.machines == s.machines
  {
    hide Inv, Enabled, Apply, Plays;
    steps, t := [], s;
    assert Plays(w, s, [], s) by { NoSteps(w, s); }
    if k in s.configs {
      var collect, config := CollectConfig(k), ConfigStep(k, true, Stored, false);
      CollectConfigIs(w, s, k);
      PlaysThen(w, s, [], s, collect);
      StepKeeps(w, s, collect);
      var m := Apply(w, s, collect);
      LastConfigStep(w, m, k);
      PlaysThen(w, s, [] + [collect], m, config);
      StepKeeps(w, m, config);
      steps, t := [] + [collect] + [config], Apply(w, m, config);
    }
  }

  lemma NoSteps(w: World, s: System)
    ensures Plays(w, s, [], s)
  {
  }

  lemma CollectConfigIs(w: World, s: System, k: Key)
    requires k in s.configs && k !in s.machines
    ensures Enabled(w, s, CollectConfig(k))
    ensures var t := Apply(w, s, CollectConfig(k)); t == s.(configs := t.configs) && (k in t.configs ==> t.configs[k].deleting)
  {
  }

  lemma LastConfigStep(w: World, s: System, k: Key)
    requires k in s.configs ==> s.configs[k].deleting
    ensures Enabled(w, s, ConfigStep(k, true, Stored, false))
    ensures var t := Apply(w, s, ConfigStep(k, true, Stored, false)); t == s.(configs := t.configs) && k !in t.configs
  {
    if k in s.configs { ConfigGoesIff(w, s, k, true, Stored); }
  }

  lemma CollectSecretIs(w: World, s: System, k: Key)
    requires Inv(w, s) && k !in s.configs && InstallOf(k) in s.secrets
    ensures Enabled(w, s, CollectSecret(InstallOf(k))) && Apply(w, s, CollectSecret(InstallOf(k))) == s.(secrets := s.secrets - {InstallOf(k)})
  {
    assert SecretOk(InstallOf(k), s.secrets[InstallOf(k)]);
    hide Inv;
  }

  /** Once its machine is gone, the config of a machine and then its install secret can always be
      collected. */
  lemma InstallSecretGoes(w: World, s: System, k: Key) returns (steps: seq<Step>, t: System)
    requires Sound(w) && Inv(w, s) && k !in s.machines
    ensures Plays(w, s, steps, t) && k !in t.configs && InstallOf(k) !in t.secrets
  {
    hide Inv, Enabled, Apply, Plays;
    steps, t := GarbageGoes(w, s, k);
    if InstallOf(k) in t.secrets {
      var m, step := t, CollectSecret(InstallOf(k));
      CollectSecretIs(w, m, k);
      PlaysThen(w, s, steps, m, step);
      steps, t := steps + [step], Apply(w, m, step);
    }
  }

  // ---------------------------------------------------------------- uninstall secrets

  /** A host names the uninstall secret of the machine. */
  predicate NamedByHost(s: System, k: Key) {
    k in s.attachedTo && s.attachedTo[k] in s.hosts && s.hosts[s.attachedTo[k]].uninstallSecret == Some(UninstallOf(k))
  }

  lemma NamedIff(w: World, s: System, k: Key)
    requires Inv(w, s)
    ensures NamedByHost(s, k) <==> exists h :: h in s.hosts && s.hosts[h].uninstallSecret == Some(UninstallOf(k))
  {
    forall h | h in s.hosts && s.hosts[h].uninstallSecret == Some(UninstallOf(k)) ensures NamedByHost(s, k) { assert HostOk(w, s, h, s.hosts[h]); }
  }

  /** If the uninstall secret of the machine is stored, somebody will still need it: the machine is live,
      or a host names it. */
  predicate Kept(s: System, k: Key) {
    UninstallOf(k) in s.secrets ==> Live(s, k) || NamedByHost(s, k)
  }

  /** The machine is deleted before its host has the reference; the ByoHost that has it is deleted; or the
      scripts are generated for a machine that is being deleted already. */
  predicate Leaks(w: World, s: System, step: Step, k: Key) {
    match step
    case DeleteMachine(x) => x == k && UninstallOf(k) in s.secrets && !NamedByHost(s, k)
    case DeleteHost(h) => UninstallOf(k) in s.secrets && !Live(s, k) && NamedByHost(s, k) && s.attachedTo[k] == h
    case ConfigStep(x, blocked, stop, _) => x == k && Generates(w, s, k, blocked) && stop == Stored && !Live(s, k) && !NamedByHost(s, k)
    case _ => false
  }

  // ---------------------------------------------------------------- how a step moves these

  lemma SecretMoves(w: World, s: System, step: Step, k: Key)
    requires Inv(w, s) && Enabled(w, s, step)
    ensures var t := Apply(w, s, step);
            && (UninstallOf(k) in s.secrets && UninstallOf(k) !in t.secrets ==> step.HostStep? && NamedByHost(s, k) && s.attachedTo[k] == step.h)
            && (UninstallOf(k) !in s.secrets && UninstallOf(k) in t.secrets ==>
                  step.ConfigStep? && step.k == k && Generates(w, s, k, step.blocked) && step.stop == Stored)
            && (step.ConfigStep? && step.k == k && Generates(w, s, k, step.blocked) && step.stop == Stored ==> UninstallOf(k) in t.secrets)
            && (step.HostStep? && step.h in s.hosts && Collects(s.hosts[step.h]) && s.hosts[step.h].uninstallSecret == Some(UninstallOf(k)) ==>
                  UninstallOf(k) !in t.secrets)
  {
    hide Inv, Enabled, Apply, MachinePass, HostPass, ConfigPass, ApplyAgent, Generates;
    PassApplies(w, s, step);
    if IsOutside(step) { OutsideSecrets(w, s, step, k); }
    else if step.MachineStep? { ReconcileSecrets(w, s, step.k, step.env); }
    else if step.HostStep? {
      CollectsIff(s, step.h, step.cut, UninstallOf(k));
      NamedHere(w, s, step.h, k);
    }
    else if step.ConfigStep? { ConfigStores(w, s, step.k, step.blocked, step.stop, step.lostConfig, UninstallOf(k)); }
  }

  lemma NamedHere(w: World, s: System, h: Key, k: Key)
    requires Inv(w, s) && h in s.hosts
    ensures s.hosts[h].uninstallSecret == Some(UninstallOf(k)) ==> NamedByHost(s, k) && s.attachedTo[k] == h
  {
    assert HostOk(w, s, h, s.hosts[h]);
  }

  lemma OutsideSecrets(w: World, s: System, step: Step, k: Key)
    requires Inv(w, s) && Enabled(w, s, step) && IsOutside(step)
    ensures UninstallOf(k) in Apply(w, s, step).secrets <==> UninstallOf(k) in s.secrets
  {
    if step.CollectSecret? { assert SecretOk(step.id, s.secrets[step.id]); }
    hide Inv, MachinePass, HostPass, ConfigPass, ApplyAgent, PutMachine, PutHost, PutConfig, TagFree, Agree;
  }

  lemma LiveMoves(w: World, s: System, step: Step, k: Key)
    requires Inv(w, s) && Enabled(w, s, step)
    ensures var t := Apply(w, s, step);
            && (Live(s, k) ==> (Live(t, k) <==> step != DeleteMachine(k)))
            && (!Live(s, k) && Live(t, k) ==> step.CreateMachine? && step.k == k && k !in s.used)
            && s.used <= t.used
  {
    hide Enabled, Apply, MachinePass, HostPass, ConfigPass, ApplyAgent;
    PassApplies(w, s, step);
    if IsOutside(step) { OutsideLive(w, s, step, k); }
    else if step.MachineStep? { ReconcileLive(w, s, step.k, step.env, k); }
    hide Inv;
  }

  lemma OutsideLive(w: World, s: System, step: Step, k: Key)
    requires Enabled(w, s, step) && IsOutside(step) && s.machines.Keys <= s.used
    ensures var t := Apply(w, s, step);
            && (Live(s, k) ==> (Live(t, k) <==> step != DeleteMachine(k)))
            && (!Live(s, k) && Live(t, k) ==> step.CreateMachine? && step.k == k && k !in s.used)
            && s.used <= t.used
  {
    hide MachinePass, HostPass, ConfigPass, ApplyAgent, PutHost, PutConfig, PutMachine, TagFree, Agree;
    if step.DeleteMachine? { PutLive(s, step.k, s.machines[step.k].(deleting := true), k); }
    else if step.DropForeign? { PutLive(s, step.k, s.machines[step.k].(foreign := false), k); }
  }

  lemma PutLive(s: System, x: Key, m: Machine, k: Key)
    requires x in s.machines
    ensures Live(PutMachine(s, x, m), k) <==> if x == k then !m.deleting else Live(s, k)
  {
  }

  lemma ReconcileLive(w: World, s: System, x: Key, e: MachineEnv, k: Key)
    requires x in s.machines && FetchedOk(w, s, x, e) && PickOk(s, x, e)
    ensures var t := MachinePass(w, s, x, e); (Live(t, k) <==> Live(s, k)) && t.used == s.used
  {
    hide PassView, WriteBack;
    if e.resolvable {
      ViewStaysDeleting(w, s, x, e);
      WriteBackFrame(s, x, e, PassView(w, s, x, e));
      WriteBackMachines(s, x, e, PassView(w, s, x, e));
    }
  }

  lemma ViewStaysDeleting(w: World, s: System, k: Key, e: MachineEnv)
    requires k in s.machines && FetchedOk(w, s, k, e) && PickOk(s, k, e) && e.resolvable
    ensures PassView(w, s, k, e).m.deleting == s.machines[k].deleting
  {
    hide NormalView;
    if Normal(s, k, e) { NormalMachine(w, s, k, e); }
  }

  /** A reference is given only by the reconcile of the live machine itself. It goes with the ByoHost, or
      together with the secret. */
  predicate NameMoved(w: World, s: System, t: System, step: Step, k: Key) {
    && (NamedByHost(s, k) && !NamedByHost(t, k) ==>
          || (step.DeleteHost? && step.h == s.attachedTo[k])
          || (step.HostStep? && step.h == s.attachedTo[k] && Collects(s.hosts[step.h])))
    && (NamedByHost(s, k) && step.DeleteHost? && step.h == s.attachedTo[k] ==> !NamedByHost(t, k))
    && (!NamedByHost(s, k) && NamedByHost(t, k) ==> step.MachineStep? && Live(s, k))
  }

  lemma OutsideNames(w: World, s: System, step: Step, k: Key)
    requires Enabled(w, s, step) && IsOutside(step)
    ensures NameMoved(w, s, Apply(w, s, step), step, k)
  {
    hide Enabled, Apply;
    if k in s.attachedTo { OutsideMoves(w, s, step, s.attachedTo[k]); } else { OutsideMoves(w, s, step, k); }
  }

  lemma ReconcileKeepsName(w: World, s: System, x: Key, e: MachineEnv, k: Key)
    requires Inv(w, s) && x in s.machines && FetchedOk(w, s, x, e) && PickOk(s, x, e) && NamedByHost(s, k)
    ensures NamedByHost(MachinePass(w, s, x, e), k)
  {
    hide Inv, MachinePass, PassView, FetchedOk, PickOk;
    ReconcileMoves(w, s, x, e, s.attachedTo[k]);
    AttachedStays(w, s, x, e, k);
  }

  lemma AttachedStays(w: World, s: System, x: Key, e: MachineEnv, k: Key)
    requires Inv(w, s) && x in s.machines && FetchedOk(w, s, x, e) && PickOk(s, x, e)
    ensures var t := MachinePass(w, s, x, e);
            && (k in s.attachedTo ==> k in t.attachedTo && t.attachedTo[k] == s.attachedTo[k])
            && (k in t.attachedTo && k !in s.attachedTo ==> x == k && Live(s, k))
  {
    hide Inv, MachinePass, PassView, FetchedOk, PickOk;
    Observations(w, s, x, e);
    if e.resolvable { PassHosts(w, s, x, e); } else { Unresolved(w, s, x, e); }
  }

  lemma ReconcileGivesName(w: World, s: System, x: Key, e: MachineEnv, k: Key)
    requires Inv(w, s) && x in s.machines && FetchedOk(w, s, x, e) && PickOk(s, x, e) && !NamedByHost(s, k)
    ensures NamedByHost(MachinePass(w, s, x, e), k) ==> Live(s, k)
  {
    hide MachinePass, PassView, FetchedOk, PickOk;
    AttachedStays(w, s, x, e, k);
    if x in s.configs { assert ConfigOk(w, s, x, s.configs[x]); }
    if e.resolvable {
      PassHosts(w, s, x, e);
      ReferencesMove(w, s, x, e);
    } else {
      Unresolved(w, s, x, e);
    }
  }

  lemma ReconcileNames(w: World, s: System, x: Key, e: MachineEnv, k: Key)
    requires Inv(w, s) && x in s.machines && FetchedOk(w, s, x, e) && PickOk(s, x, e)
    ensures NameMoved(w, s, MachinePass(w, s, x, e), MachineStep(x, e), k)
  {
    hide Inv, MachinePass, FetchedOk, PickOk, NamedByHost;
    if NamedByHost(s, k) { ReconcileKeepsName(w, s, x, e, k); } else { ReconcileGivesName(w, s, x, e, k); }
  }

  lemma NameMoves(w: World, s: System, step: Step, k: Key)
    requires Inv(w, s) && Enabled(w, s, step)
    ensures NameMoved(w, s, Apply(w, s, step), step, k)
  {
    hide Inv, Enabled, Apply, MachinePass, HostPass, ConfigPass, AgentPass;
    PassApplies(w, s, step);
    if IsOutside(step) { OutsideNames(w, s, step, k); }
    else if step.MachineStep? { hide NameMoved; ReconcileNames(w, s, step.k, step.env, k); }
    else if step.AgentStep? { AgentMoves(s.hosts[step.h], step.skip, step.outcomes); }
  }

  // ---------------------------------------------------------------- kept, or left behind for good

  /** A step leaves a secret behind if and only if it is one of those. */
  lemma StepKeptIff(w: World, s: System, step: Step, k: Key)
    requires Inv(w, s) && Enabled(w, s, step) && Kept(s, k)
    ensures Kept(Apply(w, s, step), k) <==> !Leaks(w, s, step, k)
  {
    hide Inv, Enabled, Apply, Generates;
    SecretMoves(w, s, step, k);
    LiveMoves(w, s, step, k);
    NameMoves(w, s, step, k);
    hide Live;
  }

  /** The secret is stored, and nobody needs it or ever will. */
  predicate LeftBehind(s: System, k: Key) {
    UninstallOf(k) in s.secrets && k in s.used && !Live(s, k) && !NamedByHost(s, k)
  }

  lemma StepLeftBehind(w: World, s: System, step: Step, k: Key)
    requires Inv(w, s) && Enabled(w, s, step) && LeftBehind(s, k)
    ensures LeftBehind(Apply(w, s, step), k)
  {
    hide Inv, Enabled, Apply, Generates, Live;
    SecretMoves(w, s, step, k);
    LiveMoves(w, s, step, k);
    NameMoves(w, s, step, k);
  }

  predicate Known(s: System, k: Key) {
    UninstallOf(k) in s.secrets ==> k in s.used
  }

  lemma StepKnown(w: World, s: System, step: Step, k: Key)
    requires Inv(w, s) && Enabled(w, s, step) && Known(s, k)
    ensures Known(Apply(w, s, step), k)
  {
    assert s.machines.Keys <= s.used;
    hide Inv, Enabled, Apply, Live;
    SecretMoves(w, s, step, k);
    LiveMoves(w, s, step, k);
  }

  lemma {:induction false} RunKnown(w: World, r: Run, i: nat, k: Key)
    requires Sound(w) && Valid(w, r) && i < |r.states|
    ensures Known(r.states[i], k)
  {
    hide Inv, Apply, Enabled;
    if i > 0 {
      hide Known;
      RunKnown(w, r, i - 1, k);
      Invariant(w, r, i - 1);
      assert Next(w, r, i - 1);
      StepKnown(w, r.states[i - 1], r.steps[i - 1], k);
    }
  }

  /** In every run, under all faults: a stored uninstall secret is one that a live machine or a host still
      needs if and only if no step before has left it behind. */
  lemma {:induction false} KeptIff(w: World, r: Run, i: nat, k: Key)
    requires Sound(w) && Valid(w, r) && i < |r.states|
    ensures Kept(r.states[i], k) <==> forall j :: 0 <= j < i ==> !Leaks(w, r.states[j], r.steps[j], k)
  {
    hide Inv, Apply, Enabled, Leaks, Live, NamedByHost;
    if i > 0 {
      KeptIff(w, r, i - 1, k);
      Invariant(w, r, i - 1);
      RunKnown(w, r, i - 1, k);
      assert Next(w, r, i - 1);
      var s, step := r.states[i - 1], r.steps[i - 1];
      if Kept(s, k) { StepKeptIff(w, s, step, k); } else { StepLeftBehind(w, s, step, k); }
    }
  }

  /** What is left behind stays for good, whatever anybody does. */
  lemma {:induction false} LeftBehindForGood(w: World, r: Run, i: nat, j: nat, k: Key)
    requires Sound(w) && Valid(w, r) && i <= j < |r.states| && LeftBehind(r.states[i], k)
    ensures LeftBehind(r.states[j], k)
    decreases j
  {
    hide Inv, Apply, Enabled, LeftBehind;
    if i < j {
      LeftBehindForGood(w, r, i, j - 1, k);
      Invariant(w, r, j - 1);
      assert Next(w, r, j - 1);
      StepLeftBehind(w, r.states[j - 1], r.steps[j - 1], k);
    }
  }
}
