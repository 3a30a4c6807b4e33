/** What the two conditions of a ByoHost say: each reason means what happened in the pass that wrote it,
    and on a host that is not marked for cleanup a true condition is the truth about the commands run. */
module HostReports {
  import opened Objects
  import opened Agent
  import opened Manager
  import opened Protocol
  import opened Reservation
  import opened HostMoves
  import opened Traces
  import opened Cleanliness

  // ---------------------------------------------------------------- one pass

  predicate Among(events: seq<Event>, p: Event -> bool) {
    exists i :: 0 <= i < |events| && p(events[i])
  }

  predicate JoinFails(e: Event) { e.BootstrapRun? && !e.ok }
  predicate InstallFails(e: Event) { e.InstallRun? && !e.ok }

  /** The host has a machine and its bootstrap script, and has not joined. */
  predicate Ready(h: Host, o: Outcomes) {
    h.machineRef.Some? && h.bootstrapSecret.Some? && !h.node.IsTrue? && o.readBootstrap
  }

  /** The two conditions after a pass that is no cleanup, from what the pass found and what it ran. */
  predicate NormalReports(h: Host, skip: bool, o: Outcomes, q: Host, events: seq<Event>) {
    && (h.machineRef.None? ==> q.node == IsFalse(WaitingForMachineRef))
    && (h.machineRef.Some? && h.bootstrapSecret.None? ==> q.node == IsFalse(BootstrapDataSecretUnavailable))
    && (Among(events, Joined) <==> q.node.IsTrue? && !h.node.IsTrue?)
    && (Among(events, JoinFails) ==> q.node == IsFalse(CloudInitExecutionFailed))
    && (Among(events, Installed) <==> q.components.IsTrue? && !h.components.IsTrue?)
    && (Among(events, InstallFails) ==> q.components == IsFalse(InstallationFailed))
    && (q.node != h.node ==>
          match q.node
          case IsTrue => Among(events, Joined)
          case IsFalse(WaitingForMachineRef) => h.machineRef.None?
          case IsFalse(BootstrapDataSecretUnavailable) => h.machineRef.Some? && h.bootstrapSecret.None?
          case IsFalse(CleanDirectoriesFailed) => !o.cleanDirs && !Among(events, Bootstraps)
          case IsFalse(CloudInitExecutionFailed) => Among(events, JoinFails)
          case _ => false)
    && (q.components != h.components ==>
          match q.components
          case IsTrue => Among(events, Installed)
          case IsFalse(InstallationSecretUnavailable) => h.machineRef.Some? && h.installSecret.None? && events == []
          case IsFalse(InstallationFailed) => Among(events, InstallFails)
          case _ => false)
    && (Ready(h, o) && !skip && !h.components.IsTrue? && h.installSecret.None? ==> q.components == IsFalse(InstallationSecretUnavailable))
    && (Ready(h, o) && !o.cleanDirs && (skip || q.components.IsTrue?) ==> q.node == IsFalse(CleanDirectoriesFailed))
  }

  /** The commands of such a pass: nothing is bootstrapped without components, nothing follows a failed
      installation, a failed bootstrap is followed by its reset, and each script is the host's own. */
  predicate NormalCommands(h: Host, skip: bool, o: Outcomes, q: Host, events: seq<Event>) {
    && (Among(events, Bootstraps) && !skip ==> q.components.IsTrue?)
    && (Among(events, InstallFails) ==> |events| == 1)
    && (forall i :: 0 <= i < |events| ==>
          match events[i]
          case InstallRun(id, ok) => i == 0 && !skip && h.installSecret == Some(id) && ok == o.install
          case BootstrapRun(k, id, ok) => h.machineRef == Some(k) && h.bootstrapSecret == Some(id) && ok == o.bootstrap
                                          && |events| == (if ok then i + 1 else i + 2)
          case FailureReset(ok) => i > 0 && JoinFails(events[i - 1]) && ok == o.reset
          case _ => false)
  }

  lemma AmongNone(p: Event -> bool)
    ensures !Among([], p)
  {
  }

  lemma AmongMore(events: seq<Event>, e: Event, p: Event -> bool)
    ensures Among(events + [e], p) <==> Among(events, p) || p(e)
  {
    var all := events + [e];
    if Among(events, p) { var i :| 0 <= i < |events| && p(events[i]); assert p(all[i]); }
    if p(e) { assert p(all[|events|]); }
  }

  /** The commands of a normal pass, one after the other. */
  lemma NormalEvents(h: Host, skip: bool, o: Outcomes)
    ensures NormalPass(h, skip, o).events ==
            (if Installing(h, skip, o) then [InstallRun(h.installSecret.value, o.install)] else []) +
            (if Bootstrapping(h, skip, o) then [BootstrapRun(h.machineRef.value, h.bootstrapSecret.value, o.bootstrap)] else []) +
            (if Bootstrapping(h, skip, o) && !o.bootstrap then [FailureReset(o.reset)] else [])
  {
  }

  /** Whether one of the commands of a normal pass is of some kind. */
  lemma NormalAmong(h: Host, skip: bool, o: Outcomes, p: Event -> bool)
    ensures Among(NormalPass(h, skip, o).events, p) <==>
            || (Installing(h, skip, o) && p(InstallRun(h.installSecret.value, o.install)))
            || (Bootstrapping(h, skip, o) && p(BootstrapRun(h.machineRef.value, h.bootstrapSecret.value, o.bootstrap)))
            || (Bootstrapping(h, skip, o) && !o.bootstrap && p(FailureReset(o.reset)))
  {
    hide NormalPass, Among;
    NormalEvents(h, skip, o);
    AmongNone(p);
    var first := if Installing(h, skip, o) then [InstallRun(h.installSecret.value, o.install)] else [];
    if Installing(h, skip, o) {
      AmongMore([], InstallRun(h.installSecret.value, o.install), p);
      assert [] + first == first;
    }
    if Bootstrapping(h, skip, o) {
      var run := BootstrapRun(h.machineRef.value, h.bootstrapSecret.value, o.bootstrap);
      AmongMore(first, run, p);
      assert first + [run] + [] == first + [run];
      if !o.bootstrap { AmongMore(first + [run], FailureReset(o.reset), p); }
    } else {
      assert first + [] + [] == first;
    }
  }

  /** Each reason that a normal pass writes means what it says, and each condition is written when it
      should be. */
  lemma NormalTells(h: Host, skip: bool, o: Outcomes)
    ensures var p := NormalPass(h, skip, o); NormalReports(h, skip, o, p.host, p.events)
  {
    hide Among;
    NormalAmong(h, skip, o, Joined);
    NormalAmong(h, skip, o, JoinFails);
    NormalAmong(h, skip, o, Bootstraps);
    NormalAmong(h, skip, o, Installed);
    NormalAmong(h, skip, o, InstallFails);
  }

  lemma NormalRuns(h: Host, skip: bool, o: Outcomes)
    ensures var p := NormalPass(h, skip, o); NormalCommands(h, skip, o, p.host, p.events)
  {
    hide Among;
    NormalAmong(h, skip, o, Bootstraps);
    NormalAmong(h, skip, o, InstallFails);
  }

  /** A cleanup says that there is no node once the reset has succeeded, in the condition of the
      components, and once nothing is left to undo, in that of the node; its commands are the reset of
      installed components and then the host's own uninstall script, each only behind success. */
  predicate CleanupReports(h: Host, skip: bool, o: Outcomes, q: Host, events: seq<Event>) {
    && (q.components == if h.components.IsTrue? && o.reset then IsFalse(NodeAbsent) else h.components)
    && (q.node == if UndoneOk(h, skip, o) then IsFalse(NodeAbsent) else h.node)
    && (forall i :: 0 <= i < |events| ==>
          match events[i]
          case CleanupReset(ok) => i == 0 && h.components.IsTrue? && ok == o.reset && (!ok ==> |events| == 1)
          case UninstallRun(id, ok) => !skip && h.uninstallSecret == Some(id) && ok == o.uninstall && (!ok ==> i == |events| - 1)
                                       && (h.components.IsTrue? ==> i == 1 && events[0] == CleanupReset(true))
          case Freed => i == |events| - 1 && ReachesEnd(h, skip, o)
          case _ => false)
    && (h.components.IsTrue? ==> events != [] && events[0] == CleanupReset(o.reset))
    && (ReachesEnd(h, skip, o) <==> events != [] && events[|events| - 1] == Freed)
  }

  lemma CleanupTells(h: Host, skip: bool, o: Outcomes)
    ensures var p := CleanupPass(h, skip, o); CleanupReports(h, skip, o, p.host, p.events)
  {
    hide CleanupPass;
    CleanupParts(h, skip, o);
  }

  /** A host that is being deleted and is not marked is left alone. */
  lemma DeletedHostRests(h: Host, skip: bool, o: Outcomes)
    requires h.deleting && Cleanup !in h.notes
    ensures AgentPass(h, skip, o).host == h && AgentPass(h, skip, o).events == []
  {
  }

  // ---------------------------------------------------------------- over whole runs

  predicate AnyReset(e: Event) { e.FailureReset? || e.CleanupReset? }
  predicate AnyUninstall(e: Event) { e.UninstallRun? }

  /** The node has joined and nobody has even tried to reset it since. */
  function HasJoined(s: System, h: Key): bool { Open(false, Trace(s, h), Joined, AnyReset) }

  /** The components have been installed and nobody has even tried to remove them since. */
  function HasInstalled(s: System, h: Key): bool { Open(false, Trace(s, h), Installed, AnyUninstall) }

  predicate Tells(host: Host, joined: bool, installed: bool) {
    Cleanup !in host.notes ==> (host.node.IsTrue? ==> joined) && (host.components.IsTrue? ==> installed)
  }

  predicate Truthful(s: System, h: Key) {
    h in s.hosts ==> Tells(s.hosts[h], HasJoined(s, h), HasInstalled(s, h))
  }

  lemma PassTruthful(h: Host, skip: bool, o: Outcomes, lost: bool, joined: bool, installed: bool)
    requires Tells(h, joined, installed) && !h.deleting
    ensures var p := AgentPass(h, skip, o);
            Tells(if lost then h else p.host, Open(joined, p.events, Joined, AnyReset), Open(installed, p.events, Installed, AnyUninstall))
  {
    if Cleanup in h.notes {
      hide CleanupPass, NormalPass;
      AgentMoves(h, skip, o);
      CleanupShape(h, skip, o);
    } else {
      NormalOpens(h, skip, o, joined, Joined, AnyReset);
      NormalOpens(h, skip, o, installed, Installed, AnyUninstall);
    }
  }

  lemma AgentTruthful(s: System, h: Key, skip: bool, o: Outcomes, lost: bool)
    requires h in s.hosts && Truthful(s, h) && !s.hosts[h].deleting
    ensures Truthful(ApplyAgent(s, h, skip, o, lost), h)
  {
    hide AgentPass, ApplyAgent, Tells, Trace;
    var ev := AgentPass(s.hosts[h], skip, o).events;
    AgentTrace(s, h, skip, o, lost, h);
    PassTruthful(s.hosts[h], skip, o, lost, HasJoined(s, h), HasInstalled(s, h));
    OpenAppend(false, Trace(s, h), ev, Joined, AnyReset);
    OpenAppend(false, Trace(s, h), ev, Installed, AnyUninstall);
  }

  lemma StepTruthful(w: World, s: System, step: Step, h: Key)
    requires Inv(w, s) && Enabled(w, s, step) && Truthful(s, h)
    ensures Truthful(Apply(w, s, step), h)
  {
    hide Enabled, Apply, ApplyAgent, Open;
    PassApplies(w, s, step);
    if step.AgentStep? && step.h == h {
      assert HostOk(w, s, h, s.hosts[h]);
      AgentTruthful(s, h, step.skip, step.outcomes, step.lost);
    } else {
      OthersUndisturbed(w, s, step, h);
    }
  }

  /** In every run, under all faults: on a host that is not marked for cleanup, K8sNodeBootstrapSucceeded
      is true only if a bootstrap has succeeded and no reset was tried since, and
      K8sComponentsInstallationSucceeded only if an installation has succeeded and no uninstallation was
      tried since. */
  lemma {:induction false} ConditionsTruthful(w: World, r: Run, i: nat, h: Key)
    requires Sound(w) && Valid(w, r) && i < |r.states|
    ensures Truthful(r.states[i], h)
  {
    hide Inv, Apply, Enabled;
    if i > 0 {
      hide Truthful;
      ConditionsTruthful(w, r, i - 1, h);
      Invariant(w, r, i - 1);
      assert Next(w, r, i - 1);
      StepTruthful(w, r.states[i - 1], r.steps[i - 1], h);
    }
  }
}
