/** Convergence is not unconditional. Only the reservation of a host sets the reason that makes the
    K8sInstallerConfig controller generate scripts, and a paused or early reconcile overwrites it.
    From then on, until the machine is deleted, the config is never ready and neither is the machine. */
module Stalls {
  import opened Objects
  import opened Agent
  import opened Manager
  import opened Protocol
  import opened Effects
  import opened Reservation
  import opened HostMoves
  import opened Convergence
  import ProviderId

  /** The machine has its host but no scripts, and is not ready. */
  predicate Unready(s: System, k: Key) {
    && Live(s, k) && s.machines[k].installer && k in s.attachedTo && k in s.configs
    && !s.configs[k].ready && s.machines[k].status != HostReady
    && s.attachedTo[k] in s.hosts && s.hosts[s.attachedTo[k]].installSecret.None?
  }

  /** It does not even say that it waits for scripts. */
  predicate Stalled(s: System, k: Key) {
    Unready(s, k) && s.machines[k].status != NotReady(InstallationSecretNotAvailable)
  }

  /** It is unready still; a reason that it does not give it does not give later, and a platform that it
      has reported stays. */
  predicate NoBetter(m: Machine, n: Machine) {
    && (m.status != NotReady(InstallationSecretNotAvailable) ==> n.status != NotReady(InstallationSecretNotAvailable))
    && (m.hostInfo != "" ==> n.hostInfo == m.hostInfo)
  }

  predicate StillUnready(s: System, t: System, k: Key)
    requires k in s.machines
  {
    Unready(t, k) && NoBetter(s.machines[k], t.machines[k])
  }

  lemma OwnHostFound(w: World, s: System, k: Key, e: MachineEnv)
    requires Inv(w, s) && Live(s, k) && k in s.attachedTo && FetchedOk(w, s, k, e) && PickOk(s, k, e)
    ensures e.fetched.Some? && e.fetched.value in s.hosts && e.fetched.value == s.attachedTo[k]
  {
    Observations(w, s, k, e);
    if e.fetched.Some? { assert HostOk(w, s, e.fetched.value, s.hosts[e.fetched.value]); }
    hide Inv;
  }

  /** No reconcile of a machine that has its host sets the reason again. */
  lemma UnreadyView(w: World, s: System, k: Key, e: MachineEnv)
    requires Normal(s, k, e) && e.fetched.Some? && s.machines[k].installer && k in s.configs && !s.configs[k].ready
    requires s.hosts[e.fetched.value].installSecret.None? && s.machines[k].status != HostReady
    ensures var v := NormalView(w, s, k, e);
            && NoBetter(s.machines[k], v.m) && v.m.status != HostReady
            && !v.m.deleting && v.m.installer == s.machines[k].installer
            && v.host.Some? && v.host.value.installSecret.None?
  {
    hide ProviderId.SetNodeProviderID;
  }

  lemma UnreadyPass(w: World, s: System, k: Key, e: MachineEnv)
    requires Unready(s, k) && FetchedOk(w, s, k, e) && PickOk(s, k, e) && e.resolvable && e.fetched == Some(s.attachedTo[k])
    ensures var v := PassView(w, s, k, e);
            && NoBetter(s.machines[k], v.m) && v.m.status != HostReady && !v.m.deleting && v.m.installer
            && (v.host.Some? ==> v.host.value.installSecret.None?)
  {
    hide NormalView;
    if !e.paused { UnreadyView(w, s, k, e); }
  }

  lemma UnreadyReconcile(w: World, s: System, k: Key, e: MachineEnv)
    requires Inv(w, s) && Unready(s, k) && FetchedOk(w, s, k, e) && PickOk(s, k, e)
    ensures StillUnready(s, MachinePass(w, s, k, e), k)
  {
    hide Inv, PassView, WriteBack;
    OwnHostFound(w, s, k, e);
    if e.resolvable {
      PassHosts(w, s, k, e);
      UnreadyPass(w, s, k, e);
      WriteBackFrame(s, k, e, PassView(w, s, k, e));
      WriteBackMachines(s, k, e, PassView(w, s, k, e));
    }
  }

  lemma OtherReconcileUnready(w: World, s: System, x: Key, e: MachineEnv, k: Key)
    requires Inv(w, s) && Unready(s, k) && x in s.machines && x != k && FetchedOk(w, s, x, e) && PickOk(s, x, e)
    ensures StillUnready(s, MachinePass(w, s, x, e), k)
  {
    hide PassView, WriteBack, MachinePass;
    assert Held(s, k);
    Observations(w, s, x, e);
    ElsewhereReconcile(w, s, x, e, k, s.attachedTo[k]);
    if e.resolvable { PassHosts(w, s, x, e); } else { Unresolved(w, s, x, e); }
  }

  lemma OutsideUnready(w: World, s: System, step: Step, k: Key)
    requires Inv(w, s) && Unready(s, k) && Enabled(w, s, step) && IsOutside(step) && step != DeleteMachine(k)
    ensures StillUnready(s, Apply(w, s, step), k)
  {
    var h := s.attachedTo[k];
    assert Held(s, k) && HostOk(w, s, h, s.hosts[h]);
    assert ConfigOk(w, s, k, s.configs[k]);
    OutsideMachines(w, s, step, k);
    OutsideMoves(w, s, step, h);
    assert step != DeleteHost(h);
    hide Inv, Apply, Enabled;
  }

  lemma ControllersUnready(w: World, s: System, step: Step, k: Key)
    requires Unready(s, k) && Enabled(w, s, step) && (step.HostStep? || step.ConfigStep? || step.AgentStep?)
    requires !s.configs[k].deleting && !Waits(w, k, s.machines[k])
    ensures StillUnready(s, Apply(w, s, step), k)
  {
    hide MachinePass, AgentPass, ApplyAgent, ConfigPass, HostPass, Enabled, Apply, Waits;
    PassApplies(w, s, step);
    if step.AgentStep? { AgentMoves(s.hosts[step.h], step.skip, step.outcomes); }
    else if step.ConfigStep? { UnreadyConfig(w, s, step.k, step.blocked, step.stop, step.lostConfig, k); }
  }

  lemma UnreadyConfig(w: World, s: System, x: Key, blocked: bool, stop: ConfigStop, lost: bool, k: Key)
    requires Unready(s, k) && !s.configs[k].deleting && !Waits(w, k, s.machines[k])
    ensures StillUnready(s, ConfigPass(w, s, x, blocked, stop, lost), k)
  {
    hide StoreScripts;
  }

  /** A machine without scripts whose scripts cannot be generated stays without. */
  lemma StepUnready(w: World, s: System, step: Step, k: Key)
    requires Inv(w, s) && Unready(s, k) && Enabled(w, s, step) && step != DeleteMachine(k) && !Waits(w, k, s.machines[k])
    ensures StillUnready(s, Apply(w, s, step), k)
  {
    assert ConfigOk(w, s, k, s.configs[k]);
    hide Inv, Unready, NoBetter, Waits, MachinePass, HostPass, ConfigPass, ApplyAgent;
    if IsOutside(step) { OutsideUnready(w, s, step, k); }
    else if !step.MachineStep? { ControllersUnready(w, s, step, k); }
    else if step.k == k { UnreadyReconcile(w, s, k, step.env); }
    else { OtherReconcileUnready(w, s, step.k, step.env, k); }
  }

  lemma StepStalled(w: World, s: System, step: Step, k: Key)
    requires Inv(w, s) && Stalled(s, k) && Enabled(w, s, step) && step != DeleteMachine(k)
    ensures Stalled(Apply(w, s, step), k)
  {
    hide Inv, Apply, Enabled;
    StepUnready(w, s, step, k);
  }

  /** A stalled machine stays stalled until it is deleted, whatever anybody does. */
  lemma {:induction false} StalledForGood(w: World, r: Run, i: nat, j: nat, k: Key)
    requires Sound(w) && Valid(w, r) && i <= j < |r.states| && Stalled(r.states[i], k)
    requires forall n :: i <= n < j ==> r.steps[n] != DeleteMachine(k)
    ensures Stalled(r.states[j], k)
    decreases j
  {
    hide Inv, Apply, Enabled, Stalled;
    if i < j {
      StalledForGood(w, r, i, j - 1, k);
      Invariant(w, r, j - 1);
      assert Next(w, r, j - 1);
      StepStalled(w, r.states[j - 1], r.steps[j - 1], k);
    }
  }

  /** A reconcile that finds the machine paused, or its infrastructure not ready, stalls it if and only
      if its config is not ready yet. */
  lemma PauseStallsIff(w: World, s: System, k: Key, e: MachineEnv, h: Key)
    requires Inv(w, s) && OnTrack(w, s, k, h) && FetchedOk(w, s, k, e) && PickOk(s, k, e)
    requires e.resolvable && !e.lost && e.stop == Complete && (e.paused || !e.infraReady)
    ensures Stalled(MachinePass(w, s, k, e), k) <==> s.machines[k].installer && !s.configs[k].ready
  {
    hide Inv, Stocked, MachinePass, FetchedOk, PickOk;
    Holds(w, s, k, h);
    FetchesOwn(w, s, k, e, h);
    HeldUp(w, s, k, e, h);
  }

  /** What such a reconcile leaves. */
  lemma HeldUp(w: World, s: System, k: Key, e: MachineEnv, h: Key)
    requires Live(s, k) && e.fetched == Some(h) && h in s.hosts && FetchedOk(w, s, k, e) && PickOk(s, k, e)
    requires e.resolvable && !e.lost && e.stop == Complete && (e.paused || !e.infraReady)
    ensures var t := MachinePass(w, s, k, e);
            && k in t.machines && !t.machines[k].deleting && t.machines[k].installer == s.machines[k].installer
            && t.machines[k].status in {NotReady(ResourcePaused), NotReady(WaitingForClusterInfrastructure)}
            && (k in s.configs ==> k in t.configs && t.configs[k] == s.configs[k])
            && t.attachedTo == s.attachedTo && h in t.hosts && t.hosts[h].installSecret == s.hosts[h].installSecret
  {
    PassHosts(w, s, k, e);
    PausedLeaves(w, s, k, e);
    hide PassView, WriteBack;
    WriteBackFrame(s, k, e, PassView(w, s, k, e));
    WriteBackMachines(s, k, e, PassView(w, s, k, e));
  }

  lemma PausedLeaves(w: World, s: System, k: Key, e: MachineEnv)
    requires Live(s, k) && e.fetched.Some? && e.fetched.value in s.hosts && (e.pick.Some? ==> e.pick.value in s.hosts)
    requires e.stop == Complete && (e.paused || !e.infraReady)
    ensures var v := PassView(w, s, k, e);
            && v.m.status in {NotReady(ResourcePaused), NotReady(WaitingForClusterInfrastructure)}
            && !v.m.deleting && v.m.installer == s.machines[k].installer
            && v.host.Some? && v.host.value.installSecret == s.hosts[e.fetched.value].installSecret
  {
  }
}
