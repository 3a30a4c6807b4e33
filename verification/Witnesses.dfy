/** One small world, and a run in it from the empty store: a host is registered and reserved, gets its
    scripts, installs and joins, and is marked for cleanup. Agents act only on hosts that are not paused. */
module Witnesses {
  import opened Objects
  import opened Agent
  import opened Manager
  import opened Protocol
  import opened Effects
  import opened Reservation
  import opened HostMoves
  import opened Traces
  import opened Cleanliness
  import opened Convergence
  import opened Schedules
  import opened Spoilings
  import ProviderId

  const H := Key("n", "h")
  const K := Key("n", "m")
  const W := World((k: Key) => k.name, (k: Key, p: string) => if p == "" then None else Some(Scripts("i", "u")))

  const ATTACH := QUIET.(pick := Some(H))
  const HAND := QUIET.(fetched := Some(H))

  ghost predicate Reached(s: System) {
    exists steps :: Plays(W, EMPTY, steps, s)
  }

  lemma Extend(s: System, step: Step)
    requires Reached(s) && Enabled(W, s, step) && Heard(s, step)
    ensures Reached(Apply(W, s, step))
  {
    hide Enabled, Apply, Heard;
    var steps :| Plays(W, EMPTY, steps, s);
    PlaysThen(W, EMPTY, steps, s, step);
  }

  const S1 := EMPTY.(hosts := map[H := FreshHost(map[], "p")])
  const S2 := S1.(machines := map[K := NewMachine("c", true, false)], used := {K})
  const S3 := S2.(dataSecret := map[K := "d"])

  lemma Beginning()
    ensures Reached(S3) && Sound(W) && Inv(W, S3)
  {
    assert Plays(W, EMPTY, [], EMPTY);
    FirstSteps();
    hide Enabled, Apply, Plays, Inv;
    Extend(EMPTY, Register(H, map[], "p"));
    Extend(S1, CreateMachine(K, "c", true, false));
    Extend(S2, ProvideData(K, "d"));
    EmptyStore(W);
    ReachedKeeps(S3);
  }

  lemma EmptyStore(w: World)
    ensures Inv(w, EMPTY)
  {
  }

  lemma ReachedKeeps(s: System)
    requires Reached(s) && Sound(W) && Inv(W, EMPTY)
    ensures Inv(W, s)
  {
    hide Inv, Leads, Plays;
    var steps :| Plays(W, EMPTY, steps, s);
    PlaysLeads(W, EMPTY, steps, s);
    LeadsKeeps(W, EMPTY, steps, s);
  }

  lemma FirstSteps()
    ensures Enabled(W, EMPTY, Register(H, map[], "p")) && Apply(W, EMPTY, Register(H, map[], "p")) == S1
    ensures Enabled(W, S1, CreateMachine(K, "c", true, false)) && Apply(W, S1, CreateMachine(K, "c", true, false)) == S2
    ensures Enabled(W, S2, ProvideData(K, "d")) && Apply(W, S2, ProvideData(K, "d")) == S3
  {
    hide MachinePass, HostPass, ConfigPass, ApplyAgent;
    assert {} + {K} == {K};
  }

  // ---------------------------------------------------------------- the reservation

  /** The machine has its host and waits for its scripts. */
  predicate AtFour(s: System) {
    && Ordinary(s, K, H) && s.machines[K].installer && K in s.dataSecret && Trace(s, H) == [] && s.used == {K}
    && s.machines[K].status == NotReady(InstallationSecretNotAvailable) && s.machines[K].hostInfo == "p"
    && K in s.configs && s.configs[K] == NEW_CONFIG && UninstallOf(K) !in s.secrets
    && var host := s.hosts[H]; host.installSecret.None? && host.uninstallSecret.None? && !host.node.IsTrue? && !host.components.IsTrue?
  }

  lemma FourthView()
    ensures FetchedOk(W, S3, K, ATTACH) && PickOk(S3, K, ATTACH) && Attaches(S3, K, ATTACH) && Unreserved(S3.hosts[H])
    ensures var v := NormalView(W, S3, K, ATTACH);
            && v.host == Some(Reserved(S3.hosts[H], K, "c", "m", "d", ATTACH)) && v.config == Some(NEW_CONFIG)
            && v.m == S3.machines[K].(finalizer := true, status := NotReady(InstallationSecretNotAvailable), hostInfo := "p")
  {
    assert forall h :: h in S3.hosts ==> !Carries(W, S3, h, K);
    hide BaseVersion;
  }

  lemma FourthStep()
    ensures Enabled(W, S3, MachineStep(K, ATTACH)) && AtFour(Apply(W, S3, MachineStep(K, ATTACH)))
  {
    FourthView();
    hide NormalView, BaseVersion, WriteBack;
    var v := PassView(W, S3, K, ATTACH);
    WriteBackHosts(S3, K, ATTACH, v);
    WriteBackFrame(S3, K, ATTACH, v);
    WriteBackMachines(S3, K, ATTACH, v);
  }

  // ---------------------------------------------------------------- the scripts

  /** The scripts are stored. */
  predicate AtFive(s: System) {
    && Ordinary(s, K, H) && s.machines[K].installer && K in s.dataSecret && Trace(s, H) == [] && s.used == {K}
    && K in s.configs && s.configs[K].ready && s.configs[K].install == Some(InstallOf(K)) && s.configs[K].uninstall == Some(UninstallOf(K))
    && InstallOf(K) in s.secrets && s.secrets[InstallOf(K)].payload.Install? && UninstallOf(K) in s.secrets
    && var host := s.hosts[H]; host.installSecret.None? && host.uninstallSecret.None? && !host.node.IsTrue? && !host.components.IsTrue?
  }

  lemma FifthStep(s: System)
    requires AtFour(s)
    ensures AtFive(ConfigPass(W, s, K, false, Stored, false))
  {
  }

  /** The host has the install script, and the uninstall script unless the reconcile was cut. */
  predicate AtSix(s: System, cut: bool) {
    && Ordinary(s, K, H) && Trace(s, H) == [] && s.used == {K}
    && InstallOf(K) in s.secrets && s.secrets[InstallOf(K)].payload.Install? && UninstallOf(K) in s.secrets
    && var host := s.hosts[H];
       && host.installSecret == Some(InstallOf(K)) && host.uninstallSecret == (if cut then None else Some(UninstallOf(K)))
       && !host.node.IsTrue? && !host.components.IsTrue? && Paused !in host.notes
  }

  function Handing(cut: bool): MachineEnv {
    if cut then HAND.(stop := AtUninstall) else HAND
  }

  lemma SixthView(s: System, cut: bool)
    requires AtFive(s)
    ensures var v := NormalView(W, s, K, Handing(cut));
            && v.host == Some(WithPaused(s.hosts[H], false).(installSecret := Some(InstallOf(K)),
                                                             uninstallSecret := if cut then None else Some(UninstallOf(K))))
            && v.m == s.machines[K].(status := v.m.status, ready := v.m.ready, providerID := v.m.providerID, hostInfo := v.m.hostInfo)
  {
    var base := WithPaused(s.hosts[H], false);
    assert base == s.hosts[H].(notes := base.notes);
    hide WithPaused, ProviderId.SetNodeProviderID;
  }

  lemma SixthState(s: System, cut: bool)
    requires AtFive(s) && FetchedOk(W, s, K, Handing(cut)) && PickOk(s, K, Handing(cut))
    ensures AtSix(MachinePass(W, s, K, Handing(cut)), cut)
  {
    var e := Handing(cut);
    SixthView(s, cut);
    assert PassView(W, s, K, e) == NormalView(W, s, K, e);
    hide NormalView, PassView, WriteBack;
    var v := PassView(W, s, K, e);
    WriteBackHosts(s, K, e, v);
    WriteBackFrame(s, K, e, v);
    WriteBackMachines(s, K, e, v);
    hide FetchedOk, PickOk;
  }

  lemma SixthSeen(s: System, cut: bool)
    requires Inv(W, s) && AtFive(s)
    ensures FetchedOk(W, s, K, Handing(cut)) && PickOk(s, K, Handing(cut))
  {
    Holds(W, s, K, H);
    assert Carries(W, s, H, K);
    hide Inv, Stocked;
  }

  lemma SixthStep(s: System, cut: bool)
    requires Inv(W, s) && AtFive(s)
    ensures Enabled(W, s, MachineStep(K, Handing(cut))) && AtSix(Apply(W, s, MachineStep(K, Handing(cut))), cut)
  {
    hide Inv, MachinePass, AtSix, FetchedOk, PickOk, Enabled, Apply;
    SixthSeen(s, cut);
    SixthState(s, cut);
    MachineStepIs(s, Handing(cut));
  }

  lemma MachineStepIs(s: System, e: MachineEnv)
    requires K in s.machines && FetchedOk(W, s, K, e) && PickOk(s, K, e) && e.suffix == "a"
    ensures Enabled(W, s, MachineStep(K, e)) && Apply(W, s, MachineStep(K, e)) == MachinePass(W, s, K, e)
  {
    hide FetchedOk, PickOk, MachinePass;
  }

  /** A reachable state in which the machine waits for its scripts. */
  lemma HasReserved() returns (s: System)
    ensures Reached(s) && Sound(W) && Inv(W, s) && AtFour(s)
  {
    hide Enabled, Apply, Inv, AtFour, Reached;
    Beginning();
    EmptyStore(W);
    FourthStep();
    Extend(S3, MachineStep(K, ATTACH));
    s := Apply(W, S3, MachineStep(K, ATTACH));
    ReachedKeeps(s);
  }

  /** A reachable state in which the scripts are stored and the host does not have them yet. */
  lemma HasStored() returns (s: System)
    ensures Reached(s) && Sound(W) && Inv(W, s) && AtFive(s)
  {
    hide Enabled, Apply, Inv, AtFour, AtFive, Reached;
    var s4 := HasReserved();
    var config := ConfigStep(K, false, Stored, false);
    ConfigStepIs(s4);
    FifthStep(s4);
    Extend(s4, config);
    StepKeeps(W, s4, config);
    s := Apply(W, s4, config);
  }

  /** A reachable state in which the agent of the host can do its work. */
  lemma Prepared(cut: bool) returns (s: System)
    ensures Reached(s) && Sound(W) && Inv(W, s) && AtSix(s, cut)
  {
    hide Enabled, Apply, Inv, AtFive, AtSix, Reached;
    var s5 := HasStored();
    var step := MachineStep(K, Handing(cut));
    SixthStep(s5, cut);
    Extend(s5, step);
    StepKeeps(W, s5, step);
    s := Apply(W, s5, step);
  }

  lemma ConfigStepIs(s: System)
    ensures Enabled(W, s, ConfigStep(K, false, Stored, false))
    ensures Apply(W, s, ConfigStep(K, false, Stored, false)) == ConfigPass(W, s, K, false, Stored, false)
  {
  }

  // ---------------------------------------------------------------- what goes wrong

  /** A reserved host with all it needs, on which nothing has been recorded yet. */
  predicate Waiting(h: Host) {
    && h.machineRef.Some? && h.bootstrapSecret.Some? && h.installSecret.Some?
    && !h.node.IsTrue? && !h.components.IsTrue? && Cleanup !in h.notes && !h.deleting
  }

  lemma WorkingPass(host: Host, skip: bool)
    requires Waiting(host)
    ensures var p := AgentPass(host, skip, ALL_GOOD);
            && Open(false, p.events, Bootstraps, Resets) && Open(false, p.events, Installs, Uninstalled) == !skip
            && Open(false, p.events, Joined, Frees)
            && (p.host.components.IsTrue? <==> !skip) && p.host == host.(node := p.host.node, components := p.host.components)
  {
    NormalOpens(host, skip, ALL_GOOD, false, Bootstraps, Resets);
    NormalOpens(host, skip, ALL_GOOD, false, Installs, Uninstalled);
    NormalOpens(host, skip, ALL_GOOD, false, Joined, Frees);
  }

  lemma WorkingDirties(host: Host, skip: bool, lost: bool, comp: bool)
    requires Waiting(host)
    ensures PassDirties(host, skip, ALL_GOOD, lost, comp) <==> lost || skip || host.uninstallSecret.None?
  {
  }

  lemma WaitsForWork(s: System, cut: bool)
    requires Inv(W, s) && AtSix(s, cut)
    ensures Waiting(s.hosts[H])
  {
    Holds(W, s, K, H);
    hide Inv, Stocked;
  }

  lemma WorkBegins(s: System, cut: bool, skip: bool, lost: bool)
    requires AtSix(s, cut) && Waiting(s.hosts[H])
    ensures Enabled(W, s, AgentStep(H, skip, ALL_GOOD, lost)) && CleanAt(s, H)
    ensures Dirties(s, AgentStep(H, skip, ALL_GOOD, lost), H) <==> lost || skip || cut
  {
    hide PassDirties;
    WorkingDirties(s.hosts[H], skip, lost, ComponentsOpen(s, H));
  }

  /** The node is joined, and the machine has its host as before. */
  predicate Worked(s: System, t: System) {
    && Ordinary(t, K, H) && t.secrets == s.secrets && t.used == s.used
    && H in s.hosts && t.hosts[H] == s.hosts[H].(node := t.hosts[H].node, components := t.hosts[H].components)
    && Open(false, Trace(t, H), Joined, Frees)
  }

  lemma WorkEnds(s: System, cut: bool, skip: bool, lost: bool)
    requires AtSix(s, cut) && Waiting(s.hosts[H])
    ensures var t := ApplyAgent(s, H, skip, ALL_GOOD, lost);
            && Worked(s, t) && NodeOpen(t, H) && ComponentsOpen(t, H) == !skip && (t.hosts[H].components.IsTrue? <==> !lost && !skip)
  {
    hide AgentPass, ApplyAgent, Open;
    WorkingPass(s.hosts[H], skip);
    AgentTrace(s, H, skip, ALL_GOOD, lost, H);
    assert Trace(s, H) + AgentPass(s.hosts[H], skip, ALL_GOOD).events == AgentPass(s.hosts[H], skip, ALL_GOOD).events;
  }

  /** A pass in which everything succeeds, in either mode, with or without its patch. */
  lemma Working(s: System, cut: bool, skip: bool, lost: bool)
    requires Inv(W, s) && AtSix(s, cut)
    ensures Enabled(W, s, AgentStep(H, skip, ALL_GOOD, lost)) && CleanAt(s, H)
    ensures var t := ApplyAgent(s, H, skip, ALL_GOOD, lost);
            && Worked(s, t) && NodeOpen(t, H) && ComponentsOpen(t, H) == !skip && (t.hosts[H].components.IsTrue? <==> !lost && !skip)
    ensures Dirties(s, AgentStep(H, skip, ALL_GOOD, lost), H) <==> lost || skip || cut
  {
    WaitsForWork(s, cut);
    hide Inv, ApplyAgent, CleanAt, Dirties, Enabled, Open;
    WorkBegins(s, cut, skip, lost);
    WorkEnds(s, cut, skip, lost);
  }

  lemma AgentStepIs(s: System, skip: bool, lost: bool)
    requires Enabled(W, s, AgentStep(H, skip, ALL_GOOD, lost))
    ensures H in s.hosts && Apply(W, s, AgentStep(H, skip, ALL_GOOD, lost)) == ApplyAgent(s, H, skip, ALL_GOOD, lost)
  {
  }

  /** A host that has joined, with its components installed, and nothing in the way of its cleanup. */
  predicate AtSeven(s: System) {
    && s.used == {K} && H in s.hosts && s.hosts[H].machineRef == Some(K)
    && Paused !in s.hosts[H].notes && s.hosts[H].components.IsTrue?
    && s.hosts[H].uninstallSecret == Some(UninstallOf(K)) && UninstallOf(K) in s.secrets
    && NodeOpen(s, H) && ComponentsOpen(s, H) && Open(false, Trace(s, H), Joined, Frees)
  }

  /** A reachable state in which the host has joined. */
  lemma HasJoined() returns (s: System)
    ensures Reached(s) && Sound(W) && Inv(W, s) && CleanAt(s, H) && Ordinary(s, K, H) && AtSeven(s)
  {
    hide Inv, AtSix, Apply, Enabled, Dirties, CleanAt, Reached, AtSeven;
    var s6 := Prepared(false);
    var step := AgentStep(H, false, ALL_GOOD, false);
    Working(s6, false, false, false);
    AgentStepIs(s6, false, false);
    StepKeeps(W, s6, step);
    StepCleanIff(W, s6, step, H);
    SeventhIs(s6);
    Extend(s6, step);
    s := Apply(W, s6, step);
  }

  lemma SeventhIs(s: System)
    requires Inv(W, s) && AtSix(s, false)
    ensures AtSeven(ApplyAgent(s, H, false, ALL_GOOD, false)) && Heard(s, AgentStep(H, false, ALL_GOOD, false))
  {
    hide Inv, ApplyAgent, Open;
    Working(s, false, false, false);
  }

  /** The same, and its machine has been deleted and the host marked. */
  lemma Marked() returns (s: System)
    ensures Reached(s) && Sound(W) && Inv(W, s) && CleanAt(s, H) && AtSeven(s) && Cleanup in s.hosts[H].notes && K !in s.machines
  {
    hide Inv, CleanAt, Ordinary, Plays, Reached, MarkedForCleanup, Open;
    var s7 := HasJoined();
    s := Deletion(W, s7, K, H);
    MarkedStays(s7.hosts[H]);
    SameTrace(s7, s, H);
    SameJoins(s7, s);
    ReachedOn(s7, [DeleteMachine(K), Marking(K, H)], s);
    SameAccount(s7, s);
  }

  lemma SameJoins(s: System, t: System)
    requires t.trace == s.trace
    ensures Open(false, Trace(t, H), Joined, Frees) == Open(false, Trace(s, H), Joined, Frees)
  {
  }

  lemma SameAccount(s: System, t: System)
    requires CleanAt(s, H) && H in s.hosts && H in t.hosts && t.hosts[H] == MarkedForCleanup(s.hosts[H], false) && t.trace == s.trace
    ensures CleanAt(t, H)
  {
    SameTrace(s, t, H);
    hide Open;
  }

  lemma ReachedOn(s: System, steps: seq<Step>, t: System)
    requires Reached(s) && Plays(W, s, steps, t)
    ensures Reached(t)
  {
    hide Plays;
    var before :| Plays(W, EMPTY, before, s);
    PlaysAppend(W, EMPTY, before, s, steps, t);
  }
}
