/** No reservation is orphaned: a reserved host is marked for cleanup, or its machine is in the
    store and carries the finalizer that makes deletion wait for the mark. The one fault that can
    break this is the loss of the ByoMachine patch, with the new finalizer in it, by the reconcile
    that reserved the host. */
module Orphans {
  import opened Objects
  import opened Agent
  import opened Manager
  import opened Protocol
  import opened Reservation
  import opened Effects
  import opened HostMoves

  predicate Guarded(s: System, h: Key) {
    h in s.hosts && s.hosts[h].machineRef.Some? ==>
      Cleanup in s.hosts[h].notes || Finalized(s, s.hosts[h].machineRef.value)
  }

  predicate Finalized(s: System, k: Key) {
    k in s.machines && s.machines[k].finalizer
  }

  /** The step reserves `h` for a machine without finalizer and loses the patch that adds it. */
  predicate Unguards(s: System, step: Step, h: Key) {
    && step.MachineStep? && step.k in s.machines
    && Attaches(s, step.k, step.env) && step.env.pick == Some(h)
    && step.env.lost && !s.machines[step.k].finalizer
  }

  lemma FinalizerMoves(w: World, s: System, k: Key, e: MachineEnv)
    requires k in s.machines && FetchedOk(w, s, k, e) && PickOk(s, k, e)
    ensures var t := MachinePass(w, s, k, e);
            && (forall x :: x != k ==> (Finalized(t, x) <==> Finalized(s, x)))
            && (Finalized(s, k) && !Finalized(t, k) ==> s.machines[k].deleting && (e.fetched.Some? ==> Marks(s, k, e)))
            && (Attaches(s, k, e) ==> (Finalized(t, k) <==> Finalized(s, k) || !e.lost))
  {
    if e.resolvable {
      var v := PassView(w, s, k, e);
      if !e.paused && !s.machines[k].deleting { NormalMachine(w, s, k, e); }
      WriteBackMachines(s, k, e, v);
      hide NormalView, WriteBack;
    }
  }

  /** A reconcile keeps a host guarded if and only if it is not the one fault above. */
  lemma ReconcileGuards(w: World, s: System, k: Key, e: MachineEnv, h: Key)
    requires Inv(w, s) && Guarded(s, h)
    requires k in s.machines && FetchedOk(w, s, k, e) && PickOk(s, k, e)
    ensures Guarded(MachinePass(w, s, k, e), h) <==> !Unguards(s, MachineStep(k, e), h)
  {
    hide MachinePass;
    Observations(w, s, k, e);
    ReconcileMoves(w, s, k, e, h);
    FinalizerMoves(w, s, k, e);
    LabelLookup(w, s, h, k);
  }

  /** Nothing outside the reconciles takes the finalizer away, or a machine that has it. */
  lemma OutsideFinalized(w: World, s: System, step: Step, k: Key)
    requires Enabled(w, s, step) && IsOutside(step) && s.machines.Keys <= s.used
    ensures Finalized(s, k) ==> Finalized(Apply(w, s, step), k)
  {
    hide MachinePass, ConfigPass, HostPass, ApplyAgent, PutHost, PutConfig, PutMachine;
    if step.DeleteMachine? { FinalizedStays(s, step.k, s.machines[step.k].(deleting := true), k); }
    else if step.DropForeign? { FinalizedStays(s, step.k, s.machines[step.k].(foreign := false), k); }
  }

  lemma FinalizedStays(s: System, x: Key, m: Machine, k: Key)
    requires x in s.machines && m.finalizer == s.machines[x].finalizer
    ensures Finalized(s, k) ==> Finalized(PutMachine(s, x, m), k)
  {
  }

  lemma OutsideGuards(w: World, s: System, step: Step, h: Key)
    requires Enabled(w, s, step) && IsOutside(step) && Guarded(s, h) && s.machines.Keys <= s.used
    ensures Guarded(Apply(w, s, step), h)
  {
    hide Apply;
    OutsideMoves(w, s, step, h);
    if h in s.hosts && s.hosts[h].machineRef.Some? { OutsideFinalized(w, s, step, s.hosts[h].machineRef.value); }
  }

  lemma AgentGuards(s: System, x: Key, skip: bool, o: Outcomes, lost: bool, h: Key)
    requires x in s.hosts && Guarded(s, h)
    ensures Guarded(ApplyAgent(s, x, skip, o, lost), h)
  {
    AgentMoves(s.hosts[x], skip, o);
    hide AgentPass, ApplyAgent;
  }

  lemma StepGuards(w: World, s: System, step: Step, h: Key)
    requires Inv(w, s) && Enabled(w, s, step) && Guarded(s, h) && !Unguards(s, step, h)
    ensures Guarded(Apply(w, s, step), h)
  {
    hide MachinePass, ConfigPass, HostPass, ApplyAgent;
    if IsOutside(step) { OutsideGuards(w, s, step, h); hide Inv; }
    else if step.MachineStep? { ReconcileGuards(w, s, step.k, step.env, h); hide Inv; }
    else if step.HostStep? { HostPassMoves(s, step.h, step.cut, h); hide Inv; }
    else if step.AgentStep? { AgentGuards(s, step.h, step.skip, step.outcomes, step.lost, h); hide Inv; }
  }

  lemma {:induction false} NoOrphans(w: World, r: Run, i: nat, h: Key)
    requires Sound(w) && Valid(w, r) && i < |r.states|
    requires forall j :: 0 <= j < i ==> !Unguards(r.states[j], r.steps[j], h)
    ensures Guarded(r.states[i], h)
  {
    hide Inv, Apply, Enabled, Unguards;
    if i > 0 {
      NoOrphans(w, r, i - 1, h);
      Invariant(w, r, i - 1);
      assert Next(w, r, i - 1);
      StepGuards(w, r.states[i - 1], r.steps[i - 1], h);
    }
  }
}
