/** One reconcile of the host agent, as a function from the fetched ByoHost and the outcomes
    of the commands to the patched ByoHost and the commands that were run. */
module Agent {
  import opened Objects

  /** What the agent did on the physical host. `Freed` marks a cleanup that reached its end. */
  datatype Event =
    | InstallRun(secret: SecretId, ok: bool)
    | BootstrapRun(machine: Key, secret: SecretId, ok: bool)
    | FailureReset(ok: bool)
    | CleanupReset(ok: bool)
    | UninstallRun(secret: SecretId, ok: bool)
    | Freed

  /** Which of the fallible calls of one pass succeed. A read fails when the secret is missing,
      lacks its key or does not parse as a template. */
  datatype Outcomes = Outcomes(
    readBootstrap: bool, readInstall: bool, install: bool, cleanDirs: bool, bootstrap: bool,
    reset: bool, readUninstall: bool, uninstall: bool, sentinel: bool, deleteIP: bool)

  const ALL_GOOD := Outcomes(true, true, true, true, true, true, true, true, true, true)

  datatype Pass = Pass(host: Host, events: seq<Event>)

  function AgentPass(h: Host, skip: bool, o: Outcomes): Pass {
    if Cleanup in h.notes then CleanupPass(h, skip, o)
    else if h.deleting then Pass(h, [])
    else NormalPass(h, skip, o)
  }

  function NormalPass(h: Host, skip: bool, o: Outcomes): Pass {
    if h.machineRef.None? then
      Pass(h.(node := IsFalse(WaitingForMachineRef)), [])
    else if h.bootstrapSecret.None? then
      Pass(h.(node := IsFalse(BootstrapDataSecretUnavailable)), [])
    else if h.node.IsTrue? || !o.readBootstrap then
      Pass(h, [])
    else if skip || h.components.IsTrue? then
      JoinPass(h, [], o)
    else if h.installSecret.None? then
      Pass(h.(components := IsFalse(InstallationSecretUnavailable)), [])
    else if !o.readInstall then
      Pass(h, [])
    else if !o.install then
      Pass(h.(components := IsFalse(InstallationFailed)), [InstallRun(h.installSecret.value, false)])
    else
      JoinPass(h.(components := IsTrue), [InstallRun(h.installSecret.value, true)], o)
  }

  /** The part of a normal pass that follows the installation. */
  function JoinPass(h: Host, before: seq<Event>, o: Outcomes): Pass
    requires h.machineRef.Some? && h.bootstrapSecret.Some?
  {
    var run := ok => BootstrapRun(h.machineRef.value, h.bootstrapSecret.value, ok);
    if !o.cleanDirs then
      Pass(h.(node := IsFalse(CleanDirectoriesFailed)), before)
    else if !o.bootstrap then
      Pass(h.(node := IsFalse(CloudInitExecutionFailed)), before + [run(false), FailureReset(o.reset)])
    else
      Pass(h.(node := IsTrue), before + [run(true)])
  }

  predicate RunsUninstall(h: Host, skip: bool) {
    !skip && h.uninstallSecret.Some?
  }

  /** Cleanup resets the node if components are recorded as installed, runs the uninstall script
      if one is named, removes the sentinel file and the endpoint address, and only then releases
      the reservation. Each stage is reached only if the stages before it succeeded. */
  function CleanupPass(h: Host, skip: bool, o: Outcomes): Pass {
    if h.components.IsTrue? && !o.reset then
      Pass(h, [CleanupReset(false)])
    else
      var resets := if h.components.IsTrue? then [CleanupReset(true)] else [];
      var h1 := if h.components.IsTrue? then h.(components := IsFalse(NodeAbsent)) else h;
      if RunsUninstall(h, skip) && !o.readUninstall then
        Pass(h1, resets)
      else if RunsUninstall(h, skip) && !o.uninstall then
        Pass(h1, resets + [UninstallRun(h.uninstallSecret.value, false)])
      else
        var done := if RunsUninstall(h, skip) then [UninstallRun(h.uninstallSecret.value, true)] else [];
        var h2 := h1.(node := IsFalse(NodeAbsent));
        if !o.sentinel || (EndpointIP in h.notes && !o.deleteIP) then
          Pass(h2, resets + done)
        else
          Pass(Released(h2), resets + done + [Freed])
  }

  const RESERVED_LABELS := {ClusterName, AttachedMachine}
  const RESERVED_NOTES := {EndpointIP, Cleanup, K8sVersion, BundleRegistry}

  /** The end of cleanup. The reference to the uninstall secret stays. */
  function Released(h: Host): Host {
    h.(installSecret := None,
       machineRef := None,
       bootstrapSecret := None,
       labels := h.labels - RESERVED_LABELS,
       notes := h.notes - RESERVED_NOTES)
  }

  /** A normal pass writes conditions only. */
  lemma NormalShape(h: Host, skip: bool, o: Outcomes)
    ensures var q := NormalPass(h, skip, o).host;
            && q == h.(node := q.node, components := q.components)
            && (h.machineRef.None? ==> q.components == h.components && !q.node.IsTrue?)
  {
  }

  predicate ReachesEnd(h: Host, skip: bool, o: Outcomes) {
    && (h.components.IsTrue? ==> o.reset)
    && (RunsUninstall(h, skip) ==> o.readUninstall && o.uninstall)
    && o.sentinel
    && (EndpointIP in h.notes ==> o.deleteIP)
  }

  /** A cleanup pass that does not reach its end writes conditions only; one that does leaves
      neither condition true. No condition becomes true. */
  lemma CleanupShape(h: Host, skip: bool, o: Outcomes)
    ensures var q := CleanupPass(h, skip, o).host;
            && (q.components.IsTrue? ==> h.components.IsTrue?) && (q.node.IsTrue? ==> h.node.IsTrue?)
            && if ReachesEnd(h, skip, o)
               then q == Released(h).(node := q.node, components := q.components)
                    && !q.node.IsTrue? && !q.components.IsTrue?
               else q == h.(node := q.node, components := q.components)
  {
    if h.components.IsTrue? && !o.reset {
    } else if RunsUninstall(h, skip) && !(o.readUninstall && o.uninstall) {
    }
  }

  /** The commands of a cleanup, up to its end. */
  function Undone(h: Host, skip: bool, o: Outcomes): seq<Event> {
    (if h.components.IsTrue? then [CleanupReset(o.reset)] else []) +
    (if (h.components.IsTrue? ==> o.reset) && RunsUninstall(h, skip) && o.readUninstall
     then [UninstallRun(h.uninstallSecret.value, o.uninstall)] else [])
  }

  predicate UndoneOk(h: Host, skip: bool, o: Outcomes) {
    (h.components.IsTrue? ==> o.reset) && (RunsUninstall(h, skip) ==> o.readUninstall && o.uninstall)
  }

  lemma CleanupParts(h: Host, skip: bool, o: Outcomes)
    ensures var p := CleanupPass(h, skip, o);
            var h1 := if h.components.IsTrue? && o.reset then h.(components := IsFalse(NodeAbsent)) else h;
            && p.events == Undone(h, skip, o) + (if ReachesEnd(h, skip, o) then [Freed] else [])
            && p.host == (if !UndoneOk(h, skip, o) then h1
                          else if !ReachesEnd(h, skip, o) then h1.(node := IsFalse(NodeAbsent))
                          else Released(h1.(node := IsFalse(NodeAbsent))))
  {
    hide Released;
  }

  // ---------------------------------------------------------------- hosts that look alike

  /** The agent cannot tell the two hosts apart. */
  predicate Alike(a: Host, b: Host) {
    && a.machineRef == b.machineRef && a.bootstrapSecret == b.bootstrapSecret
    && a.installSecret == b.installSecret && a.uninstallSecret == b.uninstallSecret
    && (a.node.IsTrue? <==> b.node.IsTrue?) && (a.components.IsTrue? <==> b.components.IsTrue?)
    && (Cleanup in a.notes <==> Cleanup in b.notes) && (EndpointIP in a.notes <==> EndpointIP in b.notes)
    && a.deleting == b.deleting
  }

  lemma JoinAlike(a: Host, b: Host, before: seq<Event>, o: Outcomes)
    requires Alike(a, b) && a.machineRef.Some? && a.bootstrapSecret.Some?
    ensures JoinPass(a, before, o).events == JoinPass(b, before, o).events
    ensures Alike(JoinPass(a, before, o).host, JoinPass(b, before, o).host)
  {
  }

  lemma NormalAlike(a: Host, b: Host, skip: bool, o: Outcomes)
    requires Alike(a, b)
    ensures NormalPass(a, skip, o).events == NormalPass(b, skip, o).events
    ensures Alike(NormalPass(a, skip, o).host, NormalPass(b, skip, o).host)
  {
    hide JoinPass;
    if a.machineRef.Some? && a.bootstrapSecret.Some? {
      JoinAlike(a, b, [], o);
      if a.installSecret.Some? { JoinAlike(a.(components := IsTrue), b.(components := IsTrue), [InstallRun(a.installSecret.value, true)], o); }
    }
  }

  lemma CleanupAlike(a: Host, b: Host, skip: bool, o: Outcomes)
    requires Alike(a, b)
    ensures CleanupPass(a, skip, o).events == CleanupPass(b, skip, o).events
    ensures Alike(CleanupPass(a, skip, o).host, CleanupPass(b, skip, o).host)
    ensures var x, y := CleanupPass(a, skip, o).host, CleanupPass(b, skip, o).host;
            (a.node == b.node ==> x.node == y.node) && (a.components == b.components ==> x.components == y.components)
  {
    CleanupParts(a, skip, o);
    CleanupParts(b, skip, o);
    hide CleanupPass;
    assert Undone(a, skip, o) == Undone(b, skip, o);
    hide Undone;
  }
}
