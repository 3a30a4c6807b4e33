/** What the reservation invariant means over whole runs, with no mention of history variables. */
module Lifetimes {
  import opened Objects
  import opened Agent
  import opened Manager
  import opened Protocol
  import opened Reservation
  import opened Effects
  import opened HostMoves

  predicate RefersTo(s: System, h: Key, k: Key) {
    h in s.hosts && s.hosts[h].machineRef == Some(k)
  }

  lemma ReconcileRemembers(w: World, s: System, x: Key, e: MachineEnv, k: Key)
    requires Inv(w, s) && x in s.machines && FetchedOk(w, s, x, e) && PickOk(s, x, e)
    requires k in s.attachedTo
    ensures var t := MachinePass(w, s, x, e); k in t.attachedTo && t.attachedTo[k] == s.attachedTo[k]
  {
    Observations(w, s, x, e);
    hide Inv, PassView, WriteBack;
    if e.resolvable { PassHosts(w, s, x, e); }
  }

  /** Attachments are never forgotten. */
  lemma StepRemembers(w: World, s: System, step: Step, k: Key)
    requires Inv(w, s) && Enabled(w, s, step) && k in s.attachedTo
    ensures var t := Apply(w, s, step); k in t.attachedTo && t.attachedTo[k] == s.attachedTo[k]
  {
    hide Inv, MachinePass, ConfigPass, HostPass;
    if IsOutside(step) { OutsideMoves(w, s, step, k); }
    else if step.MachineStep? { ReconcileRemembers(w, s, step.k, step.env, k); }
    else if step.HostStep? { HostPassMoves(s, step.h, step.cut, k); }
  }

  lemma {:induction false} RunRemembers(w: World, r: Run, i: nat, j: nat, k: Key)
    requires Sound(w) && Valid(w, r) && i <= j < |r.states| && k in r.states[i].attachedTo
    ensures k in r.states[j].attachedTo && r.states[j].attachedTo[k] == r.states[i].attachedTo[k]
    decreases j
  {
    hide Inv, Apply;
    if i < j {
      RunRemembers(w, r, i, j - 1, k);
      Invariant(w, r, j - 1);
      assert Next(w, r, j - 1);
      StepRemembers(w, r.states[j - 1], r.steps[j - 1], k);
    }
  }

  /** In its whole lifetime a machine is attached to at most one host. */
  lemma AtMostOneHost(w: World, r: Run, i: nat, j: nat, h: Key, x: Key, k: Key)
    requires Sound(w) && Valid(w, r) && i <= j < |r.states|
    requires RefersTo(r.states[i], h, k) && RefersTo(r.states[j], x, k)
    ensures h == x
  {
    hide Apply, Enabled;
    Invariant(w, r, i);
    Invariant(w, r, j);
    assert HostOk(w, r.states[i], h, r.states[i].hosts[h]) && HostOk(w, r.states[j], x, r.states[j].hosts[x]);
    RunRemembers(w, r, i, j, k);
  }

  lemma StepNoHandover(w: World, s: System, step: Step, h: Key, a: Key, b: Key)
    requires Inv(w, s) && Enabled(w, s, step)
    requires RefersTo(s, h, a) && RefersTo(Apply(w, s, step), h, b)
    ensures a == b
  {
    hide Inv, MachinePass, ConfigPass, HostPass, AgentPass;
    if IsOutside(step) { OutsideMoves(w, s, step, h); }
    else if step.MachineStep? { ReconcileMoves(w, s, step.k, step.env, h); }
    else if step.HostStep? { HostPassMoves(s, step.h, step.cut, h); }
    else if step.AgentStep? { AgentMoves(s.hosts[step.h], step.skip, step.outcomes); }
  }

  /** A host never goes from one machine to another without being free in between. */
  lemma NoHandover(w: World, r: Run, i: nat, h: Key, a: Key, b: Key)
    requires Sound(w) && Valid(w, r) && i < |r.steps|
    requires RefersTo(r.states[i], h, a) && RefersTo(r.states[i + 1], h, b)
    ensures a == b
  {
    hide Inv, Apply, Enabled;
    Invariant(w, r, i);
    assert Next(w, r, i);
    StepNoHandover(w, r.states[i], r.steps[i], h, a, b);
  }

  /** A machine that is still not being deleted still has its host, unmarked. */
  lemma LiveKeepsHost(w: World, r: Run, i: nat, j: nat, h: Key, k: Key)
    requires Sound(w) && Valid(w, r) && i <= j < |r.states|
    requires RefersTo(r.states[i], h, k) && Live(r.states[j], k)
    ensures RefersTo(r.states[j], h, k) && Cleanup !in r.states[j].hosts[h].notes
  {
    hide Apply, Enabled;
    Invariant(w, r, i);
    Invariant(w, r, j);
    assert HostOk(w, r.states[i], h, r.states[i].hosts[h]);
    RunRemembers(w, r, i, j, k);
    assert Held(r.states[j], k);
  }

  /** The parts of a reservation are all present or all absent. A cleanup mark, an install secret
      and a true condition occur only on a reserved host. */
  lemma AllOrNothing(w: World, r: Run, i: nat, h: Key)
    requires Sound(w) && Valid(w, r) && i < |r.states| && h in r.states[i].hosts
    ensures var x := r.states[i].hosts[h];
            && (x.machineRef.Some? <==> ClusterName in x.labels)
            && (x.machineRef.Some? <==> AttachedMachine in x.labels)
            && (x.machineRef.Some? <==> x.bootstrapSecret.Some?)
            && (x.machineRef.Some? <==> EndpointIP in x.notes)
            && (x.machineRef.Some? <==> K8sVersion in x.notes)
            && (x.machineRef.Some? <==> BundleRegistry in x.notes)
            && (Cleanup in x.notes || x.installSecret.Some? || x.node.IsTrue? || x.components.IsTrue? ==> x.machineRef.Some?)
            && (x.machineRef.Some? ==> x.labels[AttachedMachine] == w.tag(x.machineRef.value) && x.machineRef.value.ns == h.ns)
            && (x.installSecret.Some? ==> x.installSecret == Some(InstallOf(x.machineRef.value)))
  {
    hide Apply, Enabled;
    Invariant(w, r, i);
    var x := r.states[i].hosts[h];
    assert HostOk(w, r.states[i], h, x);
    if Unreserved(x) {
      forall y | y in RESERVED_LABELS ensures y !in x.labels { assert y !in x.labels.Keys; }
      forall y | y in RESERVED_NOTES ensures y !in x.notes { assert y !in x.notes.Keys; }
    } else {
      forall y | y in RESERVED_LABELS ensures y in x.labels { assert y in x.labels.Keys; }
      forall y | y in {EndpointIP, K8sVersion, BundleRegistry} ensures y in x.notes { assert y in x.notes.Keys; }
    }
  }

  /** The webhook admits the deletion of a host exactly when no machine in the store would find
      that host by its label; a lookup that fails does not admit more. */
  lemma DeleteStrandsNobody(w: World, r: Run, i: nat, h: Key)
    requires Sound(w) && Valid(w, r) && i < |r.states| && h in r.states[i].hosts
    ensures var s := r.states[i];
            && (DeleteAllowed(s.hosts[h], LookupMachine(s, h)) <==> forall k :: k in s.machines ==> !Carries(w, s, h, k))
            && (DeleteAllowed(s.hosts[h], LookupFailed) ==> DeleteAllowed(s.hosts[h], LookupMachine(s, h)))
  {
    hide Apply, Enabled;
    Invariant(w, r, i);
    var s := r.states[i];
    assert HostOk(w, s, h, s.hosts[h]);
    forall k | k in s.machines ensures Carries(w, s, h, k) <==> s.hosts[h].machineRef == Some(k) { LabelLookup(w, s, h, k); }
  }

  // ---------------------------------------------------------------- K8sInstallerConfig

  /** A ready config of a machine that is not being deleted names two stored secrets, which hold
      the two scripts generated for the machine's platform. */
  lemma ReadyIsTruthful(w: World, r: Run, i: nat, k: Key)
    requires Sound(w) && Valid(w, r) && i < |r.states|
    requires var s := r.states[i]; k in s.configs && s.configs[k].ready && Live(s, k)
    ensures var s := r.states[i];
            var sc := w.scripts(k, s.machines[k].hostInfo);
            && sc.Some? && s.configs[k].install.Some? && s.configs[k].uninstall.Some?
            && s.configs[k].install.value in s.secrets
            && s.secrets[s.configs[k].install.value].payload == Install(sc.value.install)
            && s.configs[k].uninstall.value in s.secrets
            && s.secrets[s.configs[k].uninstall.value].payload == Uninstall(sc.value.uninstall)
  {
    hide Apply, Enabled;
    Invariant(w, r, i);
    assert ConfigOk(w, r.states[i], k, r.states[i].configs[k]);
  }

  /** Once ready, a config is ready for as long as it exists; it goes only after its machine, and
      does not come back. */
  predicate ReadyOrGone(s: System, k: Key) {
    && k in s.used
    && (if k in s.configs then s.configs[k].ready else k !in s.machines)
  }

  lemma ConfigPassReadyOrGone(w: World, s: System, k: Key, x: Key, blocked: bool, stop: ConfigStop, lost: bool)
    requires ReadyOrGone(s, k) && (k in s.configs && s.configs[k].deleting ==> k !in s.machines)
    ensures ReadyOrGone(ConfigPass(w, s, x, blocked, stop, lost), k)
  {
    hide ConfigWork, StoreScripts;
    if x in s.configs { ConfigWorkCases(w, s, x, blocked, stop); }
  }

  lemma ReconcileReadyOrGone(w: World, s: System, k: Key, x: Key, e: MachineEnv)
    requires x in s.machines && FetchedOk(w, s, x, e) && PickOk(s, x, e) && ReadyOrGone(s, k)
    ensures ReadyOrGone(MachinePass(w, s, x, e), k)
  {
    hide PassView, WriteBack;
    if e.resolvable {
      var v := PassView(w, s, x, e);
      ViewFacts(w, s, x, e);
      WriteBackFrame(s, x, e, v);
      WriteBackMachines(s, x, e, v);
    }
  }

  /** A machine name stays used, and a machine that is gone stays gone. */
  lemma OutsideGone(w: World, s: System, step: Step, k: Key)
    requires Enabled(w, s, step) && IsOutside(step) && k in s.used
    ensures var t := Apply(w, s, step);
            && k in t.used && (k !in s.machines ==> k !in t.machines)
            && (!step.CollectConfig? ==> t.configs == s.configs)
  {
    hide MachinePass, HostPass, ConfigPass, ApplyAgent, PutConfig, PutHost, Agree, TagFree, DeleteAllowed;
    if step.DeleteMachine? || step.DropForeign? { PutGone(s, step.k, k); }
    hide PutMachine;
  }

  lemma PutGone(s: System, x: Key, k: Key)
    requires x in s.machines
    ensures forall m :: k !in s.machines ==> k !in PutMachine(s, x, m).machines
  {
  }

  lemma OutsideReadyOrGone(w: World, s: System, k: Key, step: Step)
    requires Enabled(w, s, step) && IsOutside(step)
    requires ReadyOrGone(s, k) && (k in s.configs && s.configs[k].deleting ==> k !in s.machines)
    ensures ReadyOrGone(Apply(w, s, step), k)
  {
    OutsideGone(w, s, step, k);
    if step.CollectConfig? {
      hide Agree, TagFree;
    } else {
      hide Apply, Enabled;
    }
  }

  lemma StepReadyOrGone(w: World, s: System, step: Step, k: Key)
    requires Enabled(w, s, step)
    requires ReadyOrGone(s, k) && (k in s.configs && s.configs[k].deleting ==> k !in s.machines)
    ensures ReadyOrGone(Apply(w, s, step), k)
  {
    hide MachinePass, ConfigPass;
    if IsOutside(step) { OutsideReadyOrGone(w, s, k, step); }
    else if step.MachineStep? { ReconcileReadyOrGone(w, s, k, step.k, step.env); }
    else if step.ConfigStep? { ConfigPassReadyOrGone(w, s, k, step.k, step.blocked, step.stop, step.lostConfig); }
  }

  lemma {:induction false} ReadyIsFinal(w: World, r: Run, i: nat, j: nat, k: Key)
    requires Sound(w) && Valid(w, r) && i <= j < |r.states|
    requires k in r.states[i].configs && r.states[i].configs[k].ready
    ensures ReadyOrGone(r.states[j], k)
    decreases j
  {
    Invariant(w, r, i);
    assert ConfigOk(w, r.states[i], k, r.states[i].configs[k]);
    hide Apply, Enabled;
    if i < j {
      ReadyIsFinal(w, r, i, j - 1, k);
      Invariant(w, r, j - 1);
      assert Next(w, r, j - 1);
      assert k in r.states[j - 1].configs ==> ConfigOk(w, r.states[j - 1], k, r.states[j - 1].configs[k]);
      StepReadyOrGone(w, r.states[j - 1], r.steps[j - 1], k);
    }
  }
}
