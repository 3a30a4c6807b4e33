/** What the commands run on a physical host amount to: exactly when a host that is free again is
    clean, and which passes and deletions spoil the account that makes it so. */
module Cleanliness {
  import opened Objects
  import opened Agent
  import opened Manager
  import opened Protocol
  import opened Effects
  import opened Reservation
  import opened HostMoves
  import opened Traces

  predicate Bootstraps(e: Event) { e.BootstrapRun? }
  predicate Resets(e: Event) { (e.FailureReset? || e.CleanupReset?) && e.ok }
  predicate Installs(e: Event) { e.InstallRun? }
  predicate Uninstalled(e: Event) { e.UninstallRun? && e.ok }
  predicate CleanupResets(e: Event) { e.CleanupReset? && e.ok }
  predicate Installed(e: Event) { e.InstallRun? && e.ok }
  predicate Joined(e: Event) { e.BootstrapRun? && e.ok }
  predicate Frees(e: Event) { e.Freed? }

  // ---------------------------------------------------------------- one pass

  /** A node that may still be joined is recorded as having components; components that may still
      be installed are on a reserved host with an uninstall script. */
  predicate Accounted(node: bool, comp: bool, host: Host) {
    && (node ==> host.components.IsTrue?)
    && (comp ==> host.machineRef.Some? && host.uninstallSecret.Some?)
  }

  lemma JoinOpens(h: Host, before: seq<Event>, o: Outcomes, b: bool, p: Event -> bool, q: Event -> bool)
    requires h.machineRef.Some? && h.bootstrapSecret.Some?
    ensures var ev := JoinPass(h, before, o).events;
            var b1 := Open(b, before, p, q);
            var b2 := Open(b1, [BootstrapRun(h.machineRef.value, h.bootstrapSecret.value, o.bootstrap)], p, q);
            Open(b, ev, p, q) == if !o.cleanDirs then b1 else if o.bootstrap then b2 else Open(b2, [FailureReset(o.reset)], p, q)
  {
    var run := BootstrapRun(h.machineRef.value, h.bootstrapSecret.value, o.bootstrap);
    OpenAppend(b, before, [run], p, q);
    OpenAppend(b, before + [run], [FailureReset(o.reset)], p, q);
    assert before + [run] + [FailureReset(o.reset)] == before + [run, FailureReset(o.reset)];
  }

  /** A normal pass gets as far as the install script. */
  predicate Installing(h: Host, skip: bool, o: Outcomes) {
    && h.machineRef.Some? && h.bootstrapSecret.Some? && !h.node.IsTrue? && o.readBootstrap
    && !skip && !h.components.IsTrue? && h.installSecret.Some? && o.readInstall
  }

  /** A normal pass gets as far as the bootstrap script. */
  predicate Bootstrapping(h: Host, skip: bool, o: Outcomes) {
    && h.machineRef.Some? && h.bootstrapSecret.Some? && !h.node.IsTrue? && o.readBootstrap && o.cleanDirs
    && (skip || h.components.IsTrue? || (Installing(h, skip, o) && o.install))
  }

  /** A node is left joined without a record of the installation, because the agent dies or skips
      installation; or components are installed that no script will remove. */
  predicate NormalDirties(h: Host, skip: bool, o: Outcomes, lost: bool) {
    || (Bootstrapping(h, skip, o) && (o.bootstrap || !o.reset) && !h.components.IsTrue? && (lost || skip))
    || (Installing(h, skip, o) && h.uninstallSecret.None?)
  }

  lemma NormalOpens(h: Host, skip: bool, o: Outcomes, b: bool, p: Event -> bool, q: Event -> bool)
    ensures var b1 := if Installing(h, skip, o) then Open(b, [InstallRun(h.installSecret.value, o.install)], p, q) else b;
            var b2 := if Bootstrapping(h, skip, o)
                      then Open(b1, [BootstrapRun(h.machineRef.value, h.bootstrapSecret.value, o.bootstrap)], p, q) else b1;
            Open(b, NormalPass(h, skip, o).events, p, q) ==
              if Bootstrapping(h, skip, o) && !o.bootstrap then Open(b2, [FailureReset(o.reset)], p, q) else b2
  {
    if Installing(h, skip, o) {
      if o.install { JoinOpens(h.(components := IsTrue), [InstallRun(h.installSecret.value, true)], o, b, p, q); }
    } else if h.machineRef.Some? && h.bootstrapSecret.Some? && !h.node.IsTrue? && o.readBootstrap && (skip || h.components.IsTrue?) {
      JoinOpens(h, [], o, b, p, q);
    }
  }

  /** A normal pass keeps the account, whether or not its patch arrives, if and only if it is none of
      the passes above. */
  lemma NormalAccounts(h: Host, skip: bool, o: Outcomes, lost: bool, node: bool, comp: bool)
    requires Accounted(node, comp, h)
    ensures var p := NormalPass(h, skip, o);
            Accounted(Open(node, p.events, Bootstraps, Resets), Open(comp, p.events, Installs, Uninstalled), if lost then h else p.host)
            <==> !NormalDirties(h, skip, o, lost)
  {
    NormalOpens(h, skip, o, node, Bootstraps, Resets);
    NormalOpens(h, skip, o, comp, Installs, Uninstalled);
  }

  lemma CleanupOpens(h: Host, skip: bool, o: Outcomes, b: bool, p: Event -> bool, q: Event -> bool)
    ensures var ev := CleanupPass(h, skip, o).events;
            var b1 := if h.components.IsTrue? then Open(b, [CleanupReset(o.reset)], p, q) else b;
            var b2 := if RunsUninstall(h, skip) && o.readUninstall
                      then Open(b1, [UninstallRun(h.uninstallSecret.value, o.uninstall)], p, q) else b1;
            Open(b, ev, p, q) ==
              if h.components.IsTrue? && !o.reset then b1
              else if ReachesEnd(h, skip, o) then Open(b2, [Freed], p, q)
              else b2
  {
    var resets := if h.components.IsTrue? then [CleanupReset(true)] else [];
    if RunsUninstall(h, skip) {
      OpenAppend(b, resets, [UninstallRun(h.uninstallSecret.value, o.uninstall)], p, q);
    }
    var done := if RunsUninstall(h, skip) then [UninstallRun(h.uninstallSecret.value, true)] else [];
    OpenAppend(b, resets, done, p, q);
    OpenAppend(b, resets + done, [Freed], p, q);
  }

  /** A cleanup keeps the account, wherever it fails and whether or not its patch arrives, if and only
      if it does not free a host with installed components in skipping mode. */
  lemma CleanupAccounts(h: Host, skip: bool, o: Outcomes, lost: bool, node: bool, comp: bool)
    requires Accounted(node, comp, h)
    ensures var p := CleanupPass(h, skip, o);
            Accounted(Open(node, p.events, Bootstraps, Resets), Open(comp, p.events, Installs, Uninstalled), if lost then h else p.host)
            <==> !(skip && comp && ReachesEnd(h, skip, o) && !lost)
  {
    CleanupOpens(h, skip, o, node, Bootstraps, Resets);
    CleanupOpens(h, skip, o, comp, Installs, Uninstalled);
    CleanupParts(h, skip, o);
    hide CleanupPass, Undone;
  }

  // ---------------------------------------------------------------- any step, seen from one host

  /** What a step of anybody but the host's own agent keeps, in the terms used below. */
  predicate Undisturbed(s: System, t: System, step: Step, h: Key) {
    && Trace(t, h) == Trace(s, h)
    && (h in s.hosts && h !in t.hosts ==> step == DeleteHost(h)) && (step == DeleteHost(h) ==> h !in t.hosts)
    && (if h in s.hosts && h in t.hosts then
          var a, b := s.hosts[h], t.hosts[h];
          && b.components == a.components && b.node == a.node
          && (a.machineRef.Some? ==> b.machineRef == a.machineRef)
          && (a.machineRef.Some? && a.uninstallSecret.Some? ==> b.uninstallSecret == a.uninstallSecret)
          && (Cleanup in a.notes ==> Cleanup in b.notes)
        else if h in t.hosts then
          !t.hosts[h].components.IsTrue? && !t.hosts[h].node.IsTrue?
        else true)
  }

  lemma ReconcileUndisturbed(w: World, s: System, k: Key, e: MachineEnv, h: Key)
    requires Inv(w, s) && k in s.machines && FetchedOk(w, s, k, e) && PickOk(s, k, e)
    ensures Undisturbed(s, MachinePass(w, s, k, e), MachineStep(k, e), h)
  {
    ReconcileMoves(w, s, k, e, h);
    hide Inv, PassView, WriteBack;
    if e.resolvable { WriteBackFrame(s, k, e, PassView(w, s, k, e)); }
  }

  lemma OutsideUndisturbed(w: World, s: System, step: Step, h: Key)
    requires Enabled(w, s, step) && IsOutside(step)
    ensures Undisturbed(s, Apply(w, s, step), step, h)
  {
    hide Apply;
    OutsideMoves(w, s, step, h);
  }

  lemma OtherAgentUndisturbed(s: System, x: Key, skip: bool, o: Outcomes, lost: bool, h: Key)
    requires x in s.hosts && x != h
    ensures Undisturbed(s, ApplyAgent(s, x, skip, o, lost), AgentStep(x, skip, o, lost), h)
  {
    hide AgentPass, JoinedNodes;
  }

  lemma OthersUndisturbed(w: World, s: System, step: Step, h: Key)
    requires Inv(w, s) && Enabled(w, s, step) && !(step.AgentStep? && step.h == h)
    ensures Undisturbed(s, Apply(w, s, step), step, h)
  {
    hide MachinePass, ConfigPass, HostPass, ApplyAgent;
    if IsOutside(step) { OutsideUndisturbed(w, s, step, h); hide Inv; }
    else if step.MachineStep? { ReconcileUndisturbed(w, s, step.k, step.env, h); hide Inv; }
    else if step.HostStep? { HostPassMoves(s, step.h, step.cut, h); hide Inv; }
    else if step.AgentStep? { OtherAgentUndisturbed(s, step.h, step.skip, step.outcomes, step.lost, h); hide Inv; }
    else { hide Inv; }
  }

  // ---------------------------------------------------------------- free means clean

  function NodeOpen(s: System, h: Key): bool { Open(false, Trace(s, h), Bootstraps, Resets) }
  function ComponentsOpen(s: System, h: Key): bool { Open(false, Trace(s, h), Installs, Uninstalled) }

  predicate CleanAt(s: System, h: Key) {
    if h in s.hosts then Accounted(NodeOpen(s, h), ComponentsOpen(s, h), s.hosts[h])
    else !NodeOpen(s, h) && !ComponentsOpen(s, h)
  }

  predicate PassDirties(h: Host, skip: bool, o: Outcomes, lost: bool, comp: bool) {
    if Cleanup in h.notes then skip && comp && ReachesEnd(h, skip, o) && !lost
    else !h.deleting && NormalDirties(h, skip, o, lost)
  }

  /** The step spoils the account of the host: a pass of its agent as above, or the deletion of a
      ByoHost on which something is still joined or installed. */
  predicate Dirties(s: System, step: Step, h: Key) {
    && h in s.hosts
    && match step
       case AgentStep(x, skip, o, lost) => x == h && PassDirties(s.hosts[h], skip, o, lost, ComponentsOpen(s, h))
       case DeleteHost(x) => x == h && (NodeOpen(s, h) || ComponentsOpen(s, h))
       case _ => false
  }

  lemma PassAccounts(h: Host, skip: bool, o: Outcomes, lost: bool, node: bool, comp: bool)
    requires Accounted(node, comp, h)
    ensures var p := AgentPass(h, skip, o);
            Accounted(Open(node, p.events, Bootstraps, Resets), Open(comp, p.events, Installs, Uninstalled), if lost then h else p.host)
            <==> !PassDirties(h, skip, o, lost, comp)
  {
    hide CleanupPass, NormalPass;
    if Cleanup in h.notes { CleanupAccounts(h, skip, o, lost, node, comp); } else { NormalAccounts(h, skip, o, lost, node, comp); }
  }

  lemma AgentStepClean(s: System, h: Key, skip: bool, o: Outcomes, lost: bool)
    requires h in s.hosts && CleanAt(s, h)
    ensures CleanAt(ApplyAgent(s, h, skip, o, lost), h) <==> !PassDirties(s.hosts[h], skip, o, lost, ComponentsOpen(s, h))
  {
    hide AgentPass, JoinedNodes, Accounted, PassDirties;
    var p := AgentPass(s.hosts[h], skip, o);
    PassAccounts(s.hosts[h], skip, o, lost, NodeOpen(s, h), ComponentsOpen(s, h));
    OpenAppend(false, Trace(s, h), p.events, Bootstraps, Resets);
    OpenAppend(false, Trace(s, h), p.events, Installs, Uninstalled);
  }

  /** A step of anybody keeps the account of a host if and only if it is none of those. */
  lemma StepCleanIff(w: World, s: System, step: Step, h: Key)
    requires Inv(w, s) && Enabled(w, s, step) && CleanAt(s, h)
    ensures CleanAt(Apply(w, s, step), h) <==> !Dirties(s, step, h)
  {
    if step.AgentStep? && step.h == h {
      hide Inv, ApplyAgent, PassDirties, CleanAt;
      AgentStepClean(s, h, step.skip, step.outcomes, step.lost);
    } else {
      hide Inv, Enabled, Apply, Undisturbed, Dirties, CleanAt;
      OthersUndisturbed(w, s, step, h);
      OthersKeepAccount(s, Apply(w, s, step), step, h);
    }
  }

  lemma OthersKeepAccount(s: System, t: System, step: Step, h: Key)
    requires Undisturbed(s, t, step, h) && CleanAt(s, h) && !(step.AgentStep? && step.h == h)
    ensures CleanAt(t, h) <==> !Dirties(s, step, h)
  {
    hide PassDirties, Open;
  }

  lemma {:induction false} RunClean(w: World, r: Run, i: nat, h: Key)
    requires Sound(w) && Valid(w, r) && i < |r.states|
    requires forall j :: 0 <= j < i ==> !Dirties(r.states[j], r.steps[j], h)
    ensures CleanAt(r.states[i], h)
  {
    hide Inv, Apply, Enabled, Dirties;
    if i > 0 {
      RunClean(w, r, i - 1, h);
      Invariant(w, r, i - 1);
      assert Next(w, r, i - 1);
      hide CleanAt;
      StepCleanIff(w, r.states[i - 1], r.steps[i - 1], h);
    }
  }

  /** On a free host every bootstrap attempt has been followed by a successful reset and every
      install attempt by a successful uninstall, however often scripts have failed before. */
  lemma FreeMeansClean(w: World, r: Run, i: nat, h: Key)
    requires Sound(w) && Valid(w, r) && i < |r.states|
    requires forall j :: 0 <= j < i ==> !Dirties(r.states[j], r.steps[j], h)
    requires h in r.states[i].hosts && r.states[i].hosts[h].machineRef.None?
    ensures Followed(Trace(r.states[i], h), Bootstraps, Resets)
    ensures Followed(Trace(r.states[i], h), Installs, Uninstalled)
  {
    hide Apply, Enabled, Dirties;
    RunClean(w, r, i, h);
    Invariant(w, r, i);
    assert HostOk(w, r.states[i], h, r.states[i].hosts[h]);
    OpenIff(Trace(r.states[i], h), Bootstraps, Resets);
    OpenIff(Trace(r.states[i], h), Installs, Uninstalled);
    hide Inv;
  }

  // ---------------------------------------------------------------- exactly when

  /** The host is free, or its ByoHost is gone, with something still joined or installed. */
  predicate FreeButDirty(s: System, h: Key) {
    (h in s.hosts ==> s.hosts[h].machineRef.None?) && (NodeOpen(s, h) || ComponentsOpen(s, h))
  }

  /** The cleanup of this host reaches its end, and its patch arrives, although a joined node is not
      on record or no uninstall script is run for what is installed; or the ByoHost is deleted. */
  predicate FreesDirty(s: System, step: Step, h: Key) {
    && h in s.hosts
    && match step
       case AgentStep(x, skip, o, lost) =>
         && x == h && Cleanup in s.hosts[h].notes && ReachesEnd(s.hosts[h], skip, o) && !lost
         && ((NodeOpen(s, h) && !s.hosts[h].components.IsTrue?) || (ComponentsOpen(s, h) && !RunsUninstall(s.hosts[h], skip)))
       case DeleteHost(x) => x == h && (NodeOpen(s, h) || ComponentsOpen(s, h))
       case _ => false
  }

  lemma CleanupLeaves(h: Host, skip: bool, o: Outcomes, node: bool, comp: bool)
    requires ReachesEnd(h, skip, o)
    ensures var ev := CleanupPass(h, skip, o).events;
            && Open(node, ev, Bootstraps, Resets) == (node && !h.components.IsTrue?)
            && Open(comp, ev, Installs, Uninstalled) == (comp && !RunsUninstall(h, skip))
  {
    CleanupOpens(h, skip, o, node, Bootstraps, Resets);
    CleanupOpens(h, skip, o, comp, Installs, Uninstalled);
    hide CleanupPass;
  }

  lemma AgentFrees(w: World, s: System, h: Key, skip: bool, o: Outcomes, lost: bool)
    requires h in s.hosts && HostOk(w, s, h, s.hosts[h]) && !FreeButDirty(s, h)
    ensures FreeButDirty(ApplyAgent(s, h, skip, o, lost), h) <==> FreesDirty(s, AgentStep(h, skip, o, lost), h)
  {
    var host := s.hosts[h];
    assert Cleanup in RESERVED_NOTES;
    assert host.machineRef.None? ==> Cleanup !in host.notes && AgentPass(host, skip, o).events == [];
    hide HostOk, AgentPass, ApplyAgent, Open, ReachesEnd, RunsUninstall, Trace;
    AgentMoves(host, skip, o);
    AgentTrace(s, h, skip, o, lost, h);
    var ev := AgentPass(host, skip, o).events;
    if host.machineRef.None? { assert Trace(s, h) + ev == Trace(s, h); }
    else if Cleanup in host.notes && ReachesEnd(host, skip, o) { CleanupFrees(s, h, skip, o); }
  }

  lemma CleanupFrees(s: System, h: Key, skip: bool, o: Outcomes)
    requires h in s.hosts && Cleanup in s.hosts[h].notes && ReachesEnd(s.hosts[h], skip, o)
    ensures var tr := Trace(s, h) + AgentPass(s.hosts[h], skip, o).events;
            && Open(false, tr, Bootstraps, Resets) == (NodeOpen(s, h) && !s.hosts[h].components.IsTrue?)
            && Open(false, tr, Installs, Uninstalled) == (ComponentsOpen(s, h) && !RunsUninstall(s.hosts[h], skip))
  {
    var ev := CleanupPass(s.hosts[h], skip, o).events;
    assert AgentPass(s.hosts[h], skip, o).events == ev;
    hide CleanupPass, AgentPass;
    CleanupLeaves(s.hosts[h], skip, o, NodeOpen(s, h), ComponentsOpen(s, h));
    OpenAppend(false, Trace(s, h), ev, Bootstraps, Resets);
    OpenAppend(false, Trace(s, h), ev, Installs, Uninstalled);
  }

  lemma StepFreesIff(w: World, s: System, step: Step, h: Key)
    requires Inv(w, s) && Enabled(w, s, step) && !FreeButDirty(s, h)
    ensures FreeButDirty(Apply(w, s, step), h) <==> FreesDirty(s, step, h)
  {
    if step.AgentStep? && step.h == h {
      assert HostOk(w, s, h, s.hosts[h]);
      hide Inv, ApplyAgent, HostOk, FreeButDirty, FreesDirty;
      AgentFrees(w, s, h, step.skip, step.outcomes, step.lost);
    } else {
      hide Inv, Enabled, Apply, Undisturbed, FreesDirty, FreeButDirty;
      OthersUndisturbed(w, s, step, h);
      OthersFree(s, Apply(w, s, step), step, h);
    }
  }

  lemma OthersFree(s: System, t: System, step: Step, h: Key)
    requires Undisturbed(s, t, step, h) && !FreeButDirty(s, h) && !(step.AgentStep? && step.h == h)
    ensures FreeButDirty(t, h) <==> FreesDirty(s, step, h)
  {
    hide Open;
  }

  /** Free means clean throughout a run, under all faults, if and only if no step of the run frees or
      deletes the host at the wrong time. */
  lemma {:induction false} FreeMeansCleanIff(w: World, r: Run, i: nat, h: Key)
    requires Sound(w) && Valid(w, r) && i < |r.states|
    ensures (forall n :: 0 <= n <= i ==> !FreeButDirty(r.states[n], h)) <==>
            (forall j :: 0 <= j < i ==> !FreesDirty(r.states[j], r.steps[j], h))
  {
    hide Inv, Apply, Enabled, FreeButDirty, FreesDirty, Trace;
    if i == 0 {
      EmptyIsClean(h);
    } else {
      FreeMeansCleanIff(w, r, i - 1, h);
      Invariant(w, r, i - 1);
      assert Next(w, r, i - 1);
      hide Valid;
      var s, step, t := r.states[i - 1], r.steps[i - 1], r.states[i];
      if !FreeButDirty(s, h) { StepFreesIff(w, s, step, h); }
      assert (forall n :: 0 <= n <= i ==> !FreeButDirty(r.states[n], h)) <==>
             (forall n :: 0 <= n <= i - 1 ==> !FreeButDirty(r.states[n], h)) && !FreeButDirty(t, h);
      assert (forall j :: 0 <= j < i ==> !FreesDirty(r.states[j], r.steps[j], h)) <==>
             (forall j :: 0 <= j < i - 1 ==> !FreesDirty(r.states[j], r.steps[j], h)) && !FreesDirty(s, step, h);
    }
  }

  lemma EmptyIsClean(h: Key)
    ensures !FreeButDirty(EMPTY, h)
  {
  }
}
