/** When a host that is marked for cleanup can be released, and when it no longer can. */
module Releases {
  import opened Objects
  import opened Agent
  import opened Manager
  import opened Protocol
  import opened Effects
  import opened Reservation
  import opened HostMoves
  import opened References
  import opened Cleanliness
  import opened Schedules

  /** The script that the cleanup has to run is in the store, if there is one. */
  predicate Runnable(s: System, host: Host, skip: bool) {
    RunsUninstall(host, skip) ==> host.uninstallSecret.value in s.secrets
  }

  function GoodOutcomes(skip: bool): Outcomes {
    ALL_GOOD.(readUninstall := !skip)
  }

  /** The agent hears of the host, and the pass is possible and leaves the host free. */
  predicate FreedBy(s: System, h: Key, skip: bool, o: Outcomes)
    requires h in s.hosts
  {
    Heard(s, AgentStep(h, skip, o, false)) && ReadsOk(s, s.hosts[h], o) && ApplyAgent(s, h, skip, o, false).hosts[h].machineRef.None?
  }

  /** Some pass releases a marked host if and only if the host is not paused and the uninstall script it
      has to run is stored. */
  lemma ReleaseIff(w: World, s: System, h: Key, skip: bool)
    requires Inv(w, s) && h in s.hosts && Cleanup in s.hosts[h].notes
    ensures (exists o :: FreedBy(s, h, skip, o)) <==> Runnable(s, s.hosts[h], skip) && Paused !in s.hosts[h].notes
  {
    var host := s.hosts[h];
    assert HostOk(w, s, h, host);
    if host.uninstallSecret.Some? && host.uninstallSecret.value in s.secrets {
      assert SecretOk(host.uninstallSecret.value, s.secrets[host.uninstallSecret.value]);
    }
    hide Inv, AgentPass, ApplyAgent;
    forall o { AgentMoves(host, skip, o); }
    if Runnable(s, host, skip) && Paused !in host.notes { assert FreedBy(s, h, skip, GoodOutcomes(skip)); }
  }

  // ---------------------------------------------------------------- a host that is never released

  /** The host is marked for cleanup and names an uninstall secret that is gone. */
  predicate Stuck(s: System, h: Key) {
    && h in s.hosts && Cleanup in s.hosts[h].notes && s.hosts[h].uninstallSecret.Some?
    && s.hosts[h].uninstallSecret.value !in s.secrets
  }

  /** The ByoHost is deleted, or its agent skips installation. */
  predicate Unsticks(step: Step, h: Key) {
    step == DeleteHost(h) || (step.AgentStep? && step.h == h && step.skip)
  }

  lemma StuckHost(w: World, s: System, step: Step, h: Key)
    requires Inv(w, s) && Enabled(w, s, step) && Stuck(s, h) && !Unsticks(step, h)
    ensures var t := Apply(w, s, step);
            h in t.hosts && Cleanup in t.hosts[h].notes && t.hosts[h].uninstallSecret == s.hosts[h].uninstallSecret
  {
    assert HostOk(w, s, h, s.hosts[h]);
    if step.AgentStep? && step.h == h {
      AgentMoves(s.hosts[h], step.skip, step.outcomes);
      hide Inv, AgentPass, ApplyAgent;
    } else {
      OthersUndisturbed(w, s, step, h);
      hide Inv, Apply, Enabled;
    }
  }

  /** A host that is marked for cleanup while its uninstall secret is gone is never released, until
      its ByoHost is deleted or its agent skips installation. */
  lemma {:induction false} StuckForGood(w: World, r: Run, i: nat, j: nat, h: Key)
    requires Sound(w) && Valid(w, r) && i <= j < |r.states| && Stuck(r.states[i], h)
    requires forall n :: i <= n < j ==> !Unsticks(r.steps[n], h)
    ensures Stuck(r.states[j], h)
    decreases j
  {
    hide Inv, Apply, Enabled, Unsticks;
    if i < j {
      StuckForGood(w, r, i, j - 1, h);
      Invariant(w, r, j - 1);
      RunMadeOnce(w, r, j - 1, h);
      assert Next(w, r, j - 1);
      var s, step := r.states[j - 1], r.steps[j - 1];
      StuckHost(w, s, step, h);
      StaysGone(w, s, step, s.hosts[h].uninstallSecret.value);
    }
  }

  // ---------------------------------------------------------------- a host that nobody resumes

  /** The host is marked for cleanup and paused. */
  predicate Parked(s: System, h: Key) {
    h in s.hosts && Cleanup in s.hosts[h].notes && Paused in s.hosts[h].notes
  }

  /** The annotation is taken away by hand, the ByoHost is deleted, or a pass that was waiting for a
      retry when the host was paused completes the cleanup. */
  predicate Unparks(s: System, step: Step, h: Key) {
    && h in s.hosts
    && match step
       case EditHost(x, _, notes) => x == h && Paused !in notes
       case DeleteHost(x) => x == h
       case AgentStep(x, skip, o, lost) => x == h && ReachesEnd(s.hosts[h], skip, o) && !lost
       case _ => false
  }

  /** A machine whose host is marked is not live, and no other reconcile resumes a host. */
  lemma ReconcilePauses(w: World, s: System, k: Key, e: MachineEnv, h: Key)
    requires Inv(w, s) && k in s.machines && FetchedOk(w, s, k, e) && PickOk(s, k, e) && Parked(s, h)
    ensures var t := MachinePass(w, s, k, e); h in t.hosts && Paused in t.hosts[h].notes
  {
    hide Inv, MachinePass, PassView;
    MarkedIsNotLive(w, s, k, e, h);
    if e.resolvable {
      PassHosts(w, s, k, e);
      if e.fetched == Some(h) { LeavesPause(w, s, k, e, h); }
    } else {
      Unresolved(w, s, k, e);
    }
  }

  lemma LeavesPause(w: World, s: System, k: Key, e: MachineEnv, h: Key)
    requires k in s.machines && s.machines[k].deleting && e.fetched == Some(h) && h in s.hosts && Paused in s.hosts[h].notes
    requires e.pick.Some? ==> e.pick.value in s.hosts
    ensures var x := PassView(w, s, k, e).host; x.Some? ==> Paused in x.value.notes
  {
    hide NormalView;
  }

  lemma OthersPause(w: World, s: System, step: Step, h: Key)
    requires Inv(w, s) && Enabled(w, s, step) && Parked(s, h) && !(step.AgentStep? && step.h == h)
    ensures var t := Apply(w, s, step); h in t.hosts ==> (Paused in t.hosts[h].notes <==> !Unparks(s, step, h))
  {
    hide Inv, MachinePass, HostPass, ConfigPass, ApplyAgent;
    if step.MachineStep? { ReconcilePauses(w, s, step.k, step.env, h); }
  }

  lemma AgentParks(s: System, h: Key, skip: bool, o: Outcomes, lost: bool)
    requires Parked(s, h)
    ensures var t := ApplyAgent(s, h, skip, o, lost);
            && (Parked(t, h) <==> !(ReachesEnd(s.hosts[h], skip, o) && !lost))
            && (Parked(t, h) ==> t.hosts[h].machineRef == s.hosts[h].machineRef)
  {
    hide AgentPass, ApplyAgent, ReachesEnd;
    AgentMoves(s.hosts[h], skip, o);
  }

  /** A step leaves a marked and paused host as it is if and only if it is none of those. */
  lemma StepParksIff(w: World, s: System, step: Step, h: Key)
    requires Inv(w, s) && Enabled(w, s, step) && Parked(s, h)
    ensures Parked(Apply(w, s, step), h) <==> !Unparks(s, step, h)
    ensures !Unparks(s, step, h) ==> Apply(w, s, step).hosts[h].machineRef == s.hosts[h].machineRef
  {
    hide Inv, Enabled, Apply, ApplyAgent, ReachesEnd;
    assert s.hosts[h].machineRef.Some? by { MarkedIsReserved(w, s, h); }
    if step.AgentStep? && step.h == h {
      PassApplies(w, s, step);
      AgentParks(s, h, step.skip, step.outcomes, step.lost);
    } else {
      OthersUndisturbed(w, s, step, h);
      OthersPause(w, s, step, h);
    }
  }

  lemma MarkedIsReserved(w: World, s: System, h: Key)
    requires Inv(w, s) && h in s.hosts && Cleanup in s.hosts[h].notes
    ensures s.hosts[h].machineRef.Some?
  {
    assert HostOk(w, s, h, s.hosts[h]);
    assert Cleanup in RESERVED_NOTES;
  }

  /** A host that is marked for cleanup while it is paused stays marked, paused and reserved for the
      same machine, until somebody takes the annotation away or deletes the ByoHost, or a pass that no
      event has triggered completes the cleanup. */
  lemma {:induction false} ParkedForGood(w: World, r: Run, i: nat, j: nat, h: Key)
    requires Sound(w) && Valid(w, r) && i <= j < |r.states| && Parked(r.states[i], h)
    requires forall n :: i <= n < j ==> !Unparks(r.states[n], r.steps[n], h)
    ensures Parked(r.states[j], h) && r.states[j].hosts[h].machineRef.Some?
    ensures r.states[j].hosts[h].machineRef == r.states[i].hosts[h].machineRef
    decreases j
  {
    hide Inv, Apply, Enabled, Unparks;
    if i < j {
      ParkedForGood(w, r, i, j - 1, h);
      Invariant(w, r, j - 1);
      assert Next(w, r, j - 1);
      StepParksIff(w, r.states[j - 1], r.steps[j - 1], h);
    } else {
      Invariant(w, r, i);
      MarkedIsReserved(w, r.states[i], h);
    }
  }
}
