/** After a host has been reserved for it, a machine that is left alone gets ready: a rank over the
    machine, its config, its host and its node never falls under any step of anybody, and at every
    rank below the top one controller's pass raises it. */
module Convergence {
  import opened Objects
  import opened Agent
  import opened Manager
  import opened Protocol
  import opened Effects
  import opened Reservation
  import opened HostMoves
  import opened Overlay
  import opened Nodes
  import ProviderId

  /** A reconcile that is not held up and meets no fault. */
  predicate Clear(e: MachineEnv) {
    e.resolvable && !e.paused && e.infraReady && e.stop == Complete && !e.lost
  }

  /** The machine is not deleted, nobody pauses its host by hand, and its own reconciles, its config's
      and its host agent's meet no fault. Every other machine, config, host and user may do anything.
      `skip` says whether the agent of the host skips installation. */
  predicate Undisturbing(step: Step, k: Key, h: Key, skip: bool) {
    match step
    case MachineStep(x, e) => x == k ==> Clear(e)
    case ConfigStep(x, blocked, stop, lost) => x == k ==> !blocked && stop == Stored && !lost
    case AgentStep(x, skipping, o, lost) => x == h ==> skipping == skip && o == ALL_GOOD && !lost
    case DeleteMachine(x) => x != k
    case EditHost(x, _, notes) => x == h ==> Paused !in notes
    case _ => true
  }

  function NodeOf(s: System, k: Key, h: Key): Key
    requires k in s.machines
  {
    Key(s.machines[k].cluster, h.name)
  }

  predicate Owns(s: System, k: Key, h: Key) {
    Live(s, k) && h in s.hosts && s.hosts[h].machineRef == Some(k)
  }

  /** Machine `k` holds host `h`. If it has an installer, its scripts are stored, or its platform is
      supported and it still waits for them. */
  predicate OnTrack(w: World, s: System, k: Key, h: Key) {
    && Owns(s, k, h)
    && var m, host := s.machines[k], s.hosts[h];
       && ClusterName in host.labels && host.labels[ClusterName] == m.cluster
       && (m.installer ==> k in s.configs && (s.configs[k].ready || Waits(w, k, m)))
       && (host.installSecret.Some? ==> m.installer && s.configs[k].ready)
       && (host.node.IsTrue? ==> NodeOf(s, k, h) in s.nodes)
  }

  /** The machine says that it waits for its scripts, and they can be generated. */
  predicate Waits(w: World, k: Key, m: Machine) {
    m.status == NotReady(InstallationSecretNotAvailable) && w.scripts(k, m.hostInfo).Some?
  }

  /** The host has all it needs, and the agent gets to see it. */
  predicate Given(m: Machine, host: Host) {
    Paused !in host.notes && (m.installer ==> host.installSecret.Some? && host.uninstallSecret.Some?)
  }

  function Rank(s: System, k: Key, h: Key): nat
    requires k in s.machines && h in s.hosts && (s.machines[k].installer ==> k in s.configs)
  {
    if s.machines[k].installer && !s.configs[k].ready then 0
    else if !Given(s.machines[k], s.hosts[h]) then 1
    else if !s.hosts[h].node.IsTrue? then 2
    else if s.machines[k].status != HostReady then 3
    else 4
  }

  /** The step keeps the machine on track and does not lower its rank. */
  predicate Advances(w: World, s: System, t: System, k: Key, h: Key)
    requires OnTrack(w, s, k, h)
  {
    && OnTrack(w, t, k, h) && Rank(t, k, h) >= Rank(s, k, h)
    && t.machines[k].installer == s.machines[k].installer && t.machines[k].cluster == s.machines[k].cluster
  }

  // ---------------------------------------------------------------- steps of others

  /** A step of others leaves the machine, its config and its reservation alone; its node at most gets
      an ID. */
  predicate SameSpot(s: System, t: System, k: Key, h: Key) {
    && k in s.machines && k in t.machines && t.machines[k] == s.machines[k].(foreign := t.machines[k].foreign)
    && (k in s.configs ==> k in t.configs && t.configs[k] == s.configs[k])
    && h in s.hosts && h in t.hosts && SameReservation(s.hosts[h], t.hosts[h])
    && NodeMoves(s, t, NodeOf(s, k, h))
  }

  predicate SamePlace(s: System, t: System, k: Key, h: Key) {
    SameSpot(s, t, k, h) && (Paused in t.hosts[h].notes ==> Paused in s.hosts[h].notes)
  }

  lemma SamePlaceAdvances(w: World, s: System, t: System, k: Key, h: Key)
    requires OnTrack(w, s, k, h) && SamePlace(s, t, k, h)
    ensures Advances(w, s, t, k, h)
  {
    assert ClusterName in RESERVED_LABELS;
    hide ProviderId.Accepts;
  }

  /** What the invariant adds for a machine on track. */
  lemma Holds(w: World, s: System, k: Key, h: Key)
    requires Inv(w, s) && Owns(s, k, h)
    ensures k in s.attachedTo && s.attachedTo[k] == h && k.ns == h.ns && k in s.dataSecret
    ensures var host := s.hosts[h];
            && Cleanup !in host.notes && !host.deleting && host.bootstrapSecret.Some?
            && AttachedMachine in host.labels && host.labels[AttachedMachine] == w.tag(k)
            && (host.installSecret.Some? ==> host.installSecret.value == InstallOf(k))
    ensures k in s.configs ==>
              var c := s.configs[k];
              && !c.deleting && (c.ready ==> c.install.Some? && c.uninstall.Some? && Stocked(w, s, k))
  {
    assert HostOk(w, s, h, s.hosts[h]);
    if k in s.configs { assert ConfigOk(w, s, k, s.configs[k]); }
    assert Held(s, k);
    hide Inv;
  }

  /** A reconcile that works on another host leaves this machine's objects alone. */
  lemma ElsewhereReconcile(w: World, s: System, x: Key, e: MachineEnv, k: Key, h: Key)
    requires k in s.machines && h in s.hosts && x in s.machines && x != k
    requires FetchedOk(w, s, x, e) && PickOk(s, x, e) && Target(e) != Some(h)
    ensures var t := MachinePass(w, s, x, e);
            && k in t.machines && t.machines[k] == s.machines[k]
            && (k in s.configs ==> k in t.configs && t.configs[k] == s.configs[k])
            && h in t.hosts && t.hosts[h] == s.hosts[h]
  {
    hide PassView, WriteBack;
    if e.resolvable {
      PassHosts(w, s, x, e);
      WriteBackFrame(s, x, e, PassView(w, s, x, e));
      WriteBackMachines(s, x, e, PassView(w, s, x, e));
    }
  }

  lemma OtherReconcile(w: World, s: System, x: Key, e: MachineEnv, k: Key, h: Key)
    requires Inv(w, s) && Owns(s, k, h) && x in s.machines && x != k
    requires FetchedOk(w, s, x, e) && PickOk(s, x, e) && ProviderId.LegalSuffix(e.suffix)
    ensures SamePlace(s, MachinePass(w, s, x, e), k, h)
  {
    Observations(w, s, x, e);
    LegalHosts(w, s);
    hide Inv, MachinePass, NodeMoves, ProviderId.LegalName, ProviderId.LegalSuffix;
    ReconcileNodes(w, s, x, e, NodeOf(s, k, h));
    ElsewhereReconcile(w, s, x, e, k, h);
  }

  lemma OutsidePause(w: World, s: System, step: Step, k: Key, h: Key, skip: bool)
    requires Enabled(w, s, step) && IsOutside(step) && Undisturbing(step, k, h, skip)
    ensures var t := Apply(w, s, step); h in s.hosts && h in t.hosts && Paused in t.hosts[h].notes ==> Paused in s.hosts[h].notes
  {
    hide MachinePass, HostPass, ConfigPass, ApplyAgent, PutMachine, PutConfig;
  }

  lemma OutsideSpot(w: World, s: System, step: Step, k: Key, h: Key)
    requires Inv(w, s) && Owns(s, k, h) && Enabled(w, s, step) && IsOutside(step) && step != DeleteMachine(k)
    ensures SameSpot(s, Apply(w, s, step), k, h)
  {
    Holds(w, s, k, h);
    StepNodes(w, s, step, NodeOf(s, k, h));
    hide Inv, NodeMoves, MachinePass, HostPass, ConfigPass, ApplyAgent;
    OutsideMoves(w, s, step, h);
    OutsideMachines(w, s, step, k);
  }

  lemma OutsidePlace(w: World, s: System, step: Step, k: Key, h: Key, skip: bool)
    requires Inv(w, s) && Owns(s, k, h) && Enabled(w, s, step) && IsOutside(step) && Undisturbing(step, k, h, skip)
    ensures SamePlace(s, Apply(w, s, step), k, h)
  {
    OutsideSpot(w, s, step, k, h);
    OutsidePause(w, s, step, k, h, skip);
    hide Inv, Apply, Enabled, SameReservation;
  }

  lemma OutsideMachines(w: World, s: System, step: Step, k: Key)
    requires Enabled(w, s, step) && IsOutside(step) && step != DeleteMachine(k)
    requires k in s.machines && !s.machines[k].deleting && k in s.used
    ensures var t := Apply(w, s, step);
            && k in t.machines && t.machines[k] == s.machines[k].(foreign := t.machines[k].foreign)
            && (k in s.configs ==> k in t.configs && t.configs[k] == s.configs[k])
  {
    hide MachinePass, HostPass, ConfigPass, ApplyAgent, PutHost, PutMachine, PutConfig;
    if step.DeleteMachine? { OtherMachine(s, step.k, s.machines[step.k].(deleting := true), k); }
    else if step.DropForeign? { OtherMachine(s, step.k, s.machines[step.k].(foreign := false), k); }
    else if step.CollectConfig? && k in s.configs { OtherConfig(s, step.k, s.configs[step.k].(deleting := true), k); }
  }

  lemma OtherMachine(s: System, x: Key, m: Machine, k: Key)
    requires x in s.machines && k in s.machines && !s.machines[k].deleting && (x == k ==> m == s.machines[k].(foreign := m.foreign))
    ensures var t := PutMachine(s, x, m); k in t.machines && t.machines[k] == s.machines[k].(foreign := t.machines[k].foreign)
  {
  }

  lemma OtherConfig(s: System, x: Key, c: InstallerConfig, k: Key)
    requires k in s.configs && x != k
    ensures var t := PutConfig(s, x, c); k in t.configs && t.configs[k] == s.configs[k]
  {
  }

  // ---------------------------------------------------------------- steps of the machine's own controllers

  lemma FetchesOwn(w: World, s: System, k: Key, e: MachineEnv, h: Key)
    requires Inv(w, s) && Owns(s, k, h) && FetchedOk(w, s, k, e) && PickOk(s, k, e)
    ensures e.fetched == Some(h)
  {
    Holds(w, s, k, h);
    assert Carries(w, s, h, k);
    Observations(w, s, k, e);
    if e.fetched.Some? { assert HostOk(w, s, e.fetched.value, s.hosts[e.fetched.value]); }
    hide Inv;
  }

  /** What a reconcile without faults leaves, before it looks at the node. */
  lemma OwnView(w: World, s: System, k: Key, e: MachineEnv, h: Key)
    requires Live(s, k) && h in s.hosts && Clear(e) && e.fetched == Some(h) && k in s.dataSecret
    requires e.pick.Some? ==> e.pick.value in s.hosts
    requires s.machines[k].installer ==> k in s.configs
    requires s.hosts[h].installSecret.Some? ==> s.machines[k].installer && s.configs[k].ready
    requires k in s.configs && s.configs[k].ready ==> s.configs[k].install.Some? && s.configs[k].uninstall.Some?
    ensures var v, m, host := HandedOver(w, s, k, e), s.machines[k], s.hosts[h];
            && v.m == m.(finalizer := true, hostInfo := if m.hostInfo != "" then m.hostInfo else host.details)
            && v.done == (m.installer && !s.configs[k].ready)
            && v.host.Some?
            && v.host.value == WithPaused(host, false).(installSecret := v.host.value.installSecret, uninstallSecret := v.host.value.uninstallSecret)
            && (if m.installer && s.configs[k].ready then v.host.value.installSecret.Some? && v.host.value.uninstallSecret.Some?
                else v.host.value == WithPaused(host, false))
  {
    var base := WithPaused(s.hosts[h], false);
    assert base == s.hosts[h].(notes := base.notes);
    hide WithPaused;
  }

  lemma OwnMachine(w: World, s: System, k: Key, e: MachineEnv, h: Key)
    requires Live(s, k) && Clear(e) && e.fetched == Some(h) && h in s.hosts && (e.pick.Some? ==> e.pick.value in s.hosts)
    requires NodeOf(s, k, h) in s.nodes ==> s.nodes[NodeOf(s, k, h)] == "" || ProviderId.Accepts(h.name, s.nodes[NodeOf(s, k, h)])
    requires HandedOver(w, s, k, e).host.Some?
    ensures var v, m := HandedOver(w, s, k, e), NormalView(w, s, k, e).m;
            && NormalView(w, s, k, e).host == v.host
            && (if !v.done && NodeOf(s, k, h) in s.nodes
                then m.status == HostReady && m.ready && m == v.m.(status := HostReady, ready := true, providerID := m.providerID)
                     && NormalView(w, s, k, e).node == Some(m.providerID) && m.providerID != ""
                else m == v.m)
  {
    HandedOverNode(w, s, k, e);
    hide HandedOver, NormalView, ProviderId.Accepts;
  }

  /** What a reconcile of the machine itself leaves in the store. */
  lemma OwnReconcile(w: World, s: System, k: Key, e: MachineEnv, h: Key)
    requires k in s.machines && h in s.hosts && FetchedOk(w, s, k, e) && PickOk(s, k, e)
    requires Clear(e) && e.fetched == Some(h) && !s.machines[k].deleting
    requires var v := NormalView(w, s, k, e); v.host.Some? && !v.m.deleting
    ensures var t, v := MachinePass(w, s, k, e), NormalView(w, s, k, e);
            && k in t.machines && t.machines[k] == v.m
            && (k in s.configs ==> k in t.configs && t.configs[k] == s.configs[k])
            && h in t.hosts && t.hosts[h] == v.host.value
            && (v.node.Some? ==> NodeOf(t, k, h) in t.nodes && t.nodes[NodeOf(t, k, h)] == v.node.value)
  {
    var v := PassView(w, s, k, e);
    assert v == NormalView(w, s, k, e);
    WriteBackNodes(s, k, e, v);
    hide NormalView, PassView, WriteBack;
    WriteBackHosts(s, k, e, v);
    WriteBackFrame(s, k, e, v);
    WriteBackMachines(s, k, e, v);
  }

  predicate NodeGood(s: System, n: Key) {
    n in s.nodes && s.nodes[n] != "" ==> ProviderId.Accepts(n.name, s.nodes[n])
  }

  lemma ReconcileAdvances(w: World, s: System, k: Key, e: MachineEnv, h: Key)
    requires Sound(w) && Inv(w, s) && OnTrack(w, s, k, h) && NodeGood(s, NodeOf(s, k, h)) && Clear(e)
    requires FetchedOk(w, s, k, e) && PickOk(s, k, e) && ProviderId.LegalSuffix(e.suffix)
    ensures var t := MachinePass(w, s, k, e);
            Advances(w, s, t, k, h) && (Rank(s, k, h) in {1, 3} ==> Rank(t, k, h) > Rank(s, k, h))
  {
    Holds(w, s, k, h);
    FetchesOwn(w, s, k, e, h);
    LegalHosts(w, s);
    hide Inv, NodeGood, ProviderId.LegalName, ProviderId.LegalSuffix, MachinePass, Stocked, FetchedOk, PickOk;
    ReconcileNodes(w, s, k, e, NodeOf(s, k, h));
    OwnAdvances(w, s, k, e, h);
  }

  lemma OwnAdvances(w: World, s: System, k: Key, e: MachineEnv, h: Key)
    requires Sound(w) && OnTrack(w, s, k, h) && NodeGood(s, NodeOf(s, k, h)) && Clear(e)
    requires FetchedOk(w, s, k, e) && PickOk(s, k, e) && e.fetched == Some(h) && k in s.dataSecret
    requires k in s.configs && s.configs[k].ready ==> s.configs[k].install.Some? && s.configs[k].uninstall.Some?
    requires NodeMoves(s, MachinePass(w, s, k, e), NodeOf(s, k, h))
    ensures var t := MachinePass(w, s, k, e);
            Advances(w, s, t, k, h) && (Rank(s, k, h) in {1, 3} ==> Rank(t, k, h) > Rank(s, k, h))
  {
    hide ProviderId.Accepts, MachinePass, NormalView, HandedOver;
    OwnView(w, s, k, e, h);
    OwnMachine(w, s, k, e, h);
    OwnReconcile(w, s, k, e, h);
    hide FetchedOk, PickOk;
  }

  /** What a pass without faults leaves of the config. */
  lemma OwnConfig(w: World, s: System, k: Key)
    requires k in s.machines && (k in s.configs ==> !s.configs[k].deleting)
    ensures var t := ConfigPass(w, s, k, false, Stored, false);
            k in s.configs ==> k in t.configs && (t.configs[k].ready <==> s.configs[k].ready || Waits(w, k, s.machines[k]))
  {
  }

  lemma ConfigAdvances(w: World, s: System, k: Key, h: Key)
    requires Inv(w, s) && OnTrack(w, s, k, h)
    ensures var t := ConfigPass(w, s, k, false, Stored, false); Advances(w, s, t, k, h) && Rank(t, k, h) >= 1
  {
    Holds(w, s, k, h);
    OwnConfig(w, s, k);
    hide Inv, ConfigPass, Waits, Stocked;
  }

  lemma PassAdvances(host: Host, skip: bool)
    requires host.machineRef.Some? && host.bootstrapSecret.Some? && Cleanup !in host.notes && !host.deleting
    ensures var p := AgentPass(host, skip, ALL_GOOD);
            && p.host == host.(node := p.host.node, components := p.host.components)
            && (skip || host.installSecret.Some? ==> p.host.node.IsTrue?)
            && (host.node.IsTrue? ==> p.host.node.IsTrue?)
            && (p.host.node.IsTrue? && !host.node.IsTrue? ==> Joins(p.events))
  {
  }

  lemma AgentReads(w: World, s: System, k: Key, h: Key)
    requires Inv(w, s) && OnTrack(w, s, k, h)
    ensures ReadsOk(s, s.hosts[h], ALL_GOOD)
  {
    Holds(w, s, k, h);
    hide Inv;
  }

  /** A bootstrap that succeeds makes the node of the cluster that the host is labelled with. */
  lemma JoinMakesNode(s: System, h: Key, skip: bool, o: Outcomes, lost: bool)
    requires h in s.hosts && ClusterName in s.hosts[h].labels && Joins(AgentPass(s.hosts[h], skip, o).events)
    ensures Key(s.hosts[h].labels[ClusterName], h.name) in ApplyAgent(s, h, skip, o, lost).nodes
  {
    hide AgentPass;
  }

  lemma AgentAdvances(w: World, s: System, k: Key, h: Key, skip: bool)
    requires Inv(w, s) && OnTrack(w, s, k, h)
    ensures var t := ApplyAgent(s, h, skip, ALL_GOOD, false);
            Advances(w, s, t, k, h) && ((s.machines[k].installer || skip) && Rank(s, k, h) == 2 ==> Rank(t, k, h) > 2)
  {
    hide Inv, AgentPass, ApplyAgent, Stocked, Joins, ProviderId.Accepts;
    Holds(w, s, k, h);
    PassAdvances(s.hosts[h], skip);
    AgentNodes(s, h, skip, ALL_GOOD, false, NodeOf(s, k, h));
    if Joins(AgentPass(s.hosts[h], skip, ALL_GOOD).events) { JoinMakesNode(s, h, skip, ALL_GOOD, false); }
  }

  // ---------------------------------------------------------------- every step

  /** The pass that raises the rank. */
  predicate Responsible(step: Step, k: Key, h: Key, rank: nat) {
    match rank
    case 0 => step.ConfigStep? && step.k == k
    case 1 => step.MachineStep? && step.k == k
    case 2 => step.AgentStep? && step.h == h
    case 3 => step.MachineStep? && step.k == k
    case _ => false
  }

  lemma HostPassPlace(w: World, s: System, x: Key, cut: bool, k: Key, h: Key)
    requires Owns(s, k, h) && x in s.hosts
    ensures SamePlace(s, HostPass(s, x, cut), k, h)
  {
  }

  lemma OtherConfigPlace(w: World, s: System, x: Key, blocked: bool, stop: ConfigStop, lost: bool, k: Key, h: Key)
    requires Owns(s, k, h) && x != k
    ensures SamePlace(s, ConfigPass(w, s, x, blocked, stop, lost), k, h)
  {
    hide ConfigWork;
  }

  lemma OtherAgentPlace(w: World, s: System, x: Key, skip: bool, o: Outcomes, lost: bool, k: Key, h: Key)
    requires Owns(s, k, h) && x in s.hosts && x != h
    ensures SamePlace(s, ApplyAgent(s, x, skip, o, lost), k, h)
  {
    AgentNodes(s, x, skip, o, lost, NodeOf(s, k, h));
    hide AgentPass, JoinedNodes, NodeMoves;
  }

  lemma OthersPlace(w: World, s: System, step: Step, k: Key, h: Key)
    requires Inv(w, s) && Owns(s, k, h) && Enabled(w, s, step) && !IsOutside(step)
    requires !(step.MachineStep? && step.k == k) && !(step.ConfigStep? && step.k == k) && !(step.AgentStep? && step.h == h)
    ensures SamePlace(s, Apply(w, s, step), k, h)
  {
    hide Inv, Owns, SamePlace, MachinePass, HostPass, ConfigPass, ApplyAgent;
    if step.MachineStep? { OtherReconcile(w, s, step.k, step.env, k, h); }
    else if step.HostStep? { HostPassPlace(w, s, step.h, step.cut, k, h); }
    else if step.ConfigStep? { OtherConfigPlace(w, s, step.k, step.blocked, step.stop, step.lostConfig, k, h); }
    else { OtherAgentPlace(w, s, step.h, step.skip, step.outcomes, step.lost, k, h); }
  }

  lemma TrackHolds(w: World, s: System, k: Key, h: Key)
    requires OnTrack(w, s, k, h)
    ensures Owns(s, k, h) && (s.machines[k].installer ==> k in s.configs)
  {
  }

  lemma OtherStepAdvances(w: World, s: System, step: Step, k: Key, h: Key, skip: bool)
    requires Sound(w) && Inv(w, s) && OnTrack(w, s, k, h) && Enabled(w, s, step) && Undisturbing(step, k, h, skip)
    requires !(step.MachineStep? && step.k == k) && !(step.ConfigStep? && step.k == k) && !(step.AgentStep? && step.h == h)
    ensures Advances(w, s, Apply(w, s, step), k, h)
  {
    assert Owns(s, k, h);
    hide Inv, OnTrack, Owns, SamePlace, Enabled, Apply, Advances;
    if IsOutside(step) { OutsidePlace(w, s, step, k, h, skip); } else { OthersPlace(w, s, step, k, h); }
    SamePlaceAdvances(w, s, Apply(w, s, step), k, h);
  }

  lemma StepAdvances(w: World, s: System, step: Step, k: Key, h: Key, skip: bool)
    requires Sound(w) && Inv(w, s) && OnTrack(w, s, k, h) && NodeGood(s, NodeOf(s, k, h))
    requires Enabled(w, s, step) && Undisturbing(step, k, h, skip)
    ensures var t := Apply(w, s, step);
            && Advances(w, s, t, k, h)
            && ((s.machines[k].installer || skip) && Responsible(step, k, h, Rank(s, k, h)) ==> Rank(t, k, h) > Rank(s, k, h))
  {
    hide Inv, OnTrack, Rank, Enabled, Apply, MachinePass, ConfigPass, HostPass, ApplyAgent, NodeGood;
    PassApplies(w, s, step);
    TrackHolds(w, s, k, h);
    if step.MachineStep? && step.k == k { ReconcileAdvances(w, s, k, step.env, h); }
    else if step.ConfigStep? && step.k == k { ConfigAdvances(w, s, k, h); }
    else if step.AgentStep? && step.h == h { AgentAdvances(w, s, k, h, skip); }
    else { OtherStepAdvances(w, s, step, k, h, skip); }
    TrackHolds(w, Apply(w, s, step), k, h);
  }

  const QUIET := MachineEnv(true, false, true, None, None, "", "", "", false, "a", Complete, false)

  /** A pass that raises the rank. */
  function RaisingStep(s: System, k: Key, h: Key, skip: bool): Step
    requires k in s.machines && h in s.hosts && (s.machines[k].installer ==> k in s.configs)
  {
    match Rank(s, k, h)
    case 0 => ConfigStep(k, false, Stored, false)
    case 2 => AgentStep(h, skip, ALL_GOOD, false)
    case _ => MachineStep(k, QUIET.(fetched := Some(h)))
  }

  /** Below the top rank some controller can always take the pass that raises it; if that is the agent,
      its host is not paused, so that the agent gets to see it. */
  lemma NeverStuck(w: World, s: System, k: Key, h: Key, skip: bool)
    requires Inv(w, s) && OnTrack(w, s, k, h) && Rank(s, k, h) < 4
    ensures var step := RaisingStep(s, k, h, skip);
            && Enabled(w, s, step) && Undisturbing(step, k, h, skip) && Responsible(step, k, h, Rank(s, k, h))
            && (step.AgentStep? ==> Paused !in s.hosts[h].notes)
  {
    Holds(w, s, k, h);
    assert Carries(w, s, h, k);
    AgentReads(w, s, k, h);
    hide Inv, ReadsOk, Stocked, Carries;
  }

  // ---------------------------------------------------------------- what ready means

  /** A machine that says it is ready carries the provider ID of its node. */
  predicate IdMatches(s: System, k: Key, h: Key)
    requires k in s.machines
  {
    var m := s.machines[k];
    m.status == HostReady ==> m.ready && m.providerID != "" && NodeOf(s, k, h) in s.nodes && s.nodes[NodeOf(s, k, h)] == m.providerID
  }

  lemma OwnIdMatches(w: World, s: System, k: Key, e: MachineEnv, h: Key)
    requires OnTrack(w, s, k, h) && NodeGood(s, NodeOf(s, k, h)) && Clear(e) && e.fetched == Some(h) && k in s.dataSecret
    requires k in s.configs && s.configs[k].ready ==> s.configs[k].install.Some? && s.configs[k].uninstall.Some?
    requires FetchedOk(w, s, k, e) && PickOk(s, k, e) && IdMatches(s, k, h)
    ensures var t := MachinePass(w, s, k, e); k in t.machines && IdMatches(t, k, h)
  {
    hide ProviderId.Accepts, MachinePass, NormalView, HandedOver, WithPaused;
    OwnView(w, s, k, e, h);
    OwnMachine(w, s, k, e, h);
    OwnReconcile(w, s, k, e, h);
    hide FetchedOk, PickOk;
  }

  lemma OwnMatches(w: World, s: System, k: Key, e: MachineEnv, h: Key)
    requires Inv(w, s) && OnTrack(w, s, k, h) && NodeGood(s, NodeOf(s, k, h)) && Clear(e)
    requires FetchedOk(w, s, k, e) && PickOk(s, k, e)
    requires IdMatches(s, k, h)
    ensures var t := MachinePass(w, s, k, e); k in t.machines && IdMatches(t, k, h)
  {
    Holds(w, s, k, h);
    FetchesOwn(w, s, k, e, h);
    hide Inv, IdMatches, NodeGood, MachinePass, Stocked;
    OwnIdMatches(w, s, k, e, h);
  }

  lemma PlaceMatches(s: System, t: System, k: Key, h: Key)
    requires k in s.machines && k in t.machines && IdMatches(s, k, h)
    requires t.machines[k] == s.machines[k].(foreign := t.machines[k].foreign) && NodeMoves(s, t, NodeOf(s, k, h))
    ensures IdMatches(t, k, h)
  {
    hide ProviderId.Accepts;
  }

  lemma OwnPassesKeepMachine(w: World, s: System, step: Step, k: Key)
    requires k in s.machines && Enabled(w, s, step) && (step.ConfigStep? || step.AgentStep?)
    ensures k in Apply(w, s, step).machines && Apply(w, s, step).machines[k] == s.machines[k]
  {
    hide ConfigPass, AgentPass, JoinedNodes;
  }

  lemma StepMatches(w: World, s: System, step: Step, k: Key, h: Key, skip: bool)
    requires Inv(w, s) && OnTrack(w, s, k, h) && NodeGood(s, NodeOf(s, k, h)) && Enabled(w, s, step) && Undisturbing(step, k, h, skip)
    requires IdMatches(s, k, h)
    ensures var t := Apply(w, s, step); k in t.machines && IdMatches(t, k, h)
  {
    hide Inv, MachinePass, HostPass, ConfigPass, ApplyAgent, IdMatches, NodeMoves, NodeGood;
    if step.MachineStep? && step.k == k {
      OwnMatches(w, s, k, step.env, h);
    } else {
      if step.ConfigStep? || step.AgentStep? {
        StepNodes(w, s, step, NodeOf(s, k, h));
        OwnPassesKeepMachine(w, s, step, k);
      } else if IsOutside(step) {
        OutsidePlace(w, s, step, k, h, skip);
      } else {
        OthersPlace(w, s, step, k, h);
      }
      hide Apply, Enabled, OnTrack;
      PlaceMatches(s, Apply(w, s, step), k, h);
    }
  }

  // ---------------------------------------------------------------- whole runs

  lemma RunNodeGood(w: World, r: Run, i: nat, n: Key)
    requires Sound(w) && Valid(w, r) && i < |r.states|
    ensures NodeGood(r.states[i], n)
  {
    hide Apply, Enabled, ProviderId.Accepts;
    IdWrittenOnce(w, r, i, i, n);
  }

  ghost predicate LeftAlone(r: Run, i: nat, j: nat, k: Key, h: Key, skip: bool)
    requires i <= j <= |r.steps|
  {
    forall n :: i <= n < j ==> Undisturbing(r.steps[n], k, h, skip)
  }

  /** While the machine is left alone its rank never falls. */
  lemma {:induction false} RankNeverFalls(w: World, r: Run, i: nat, j: nat, k: Key, h: Key, skip: bool)
    requires Sound(w) && Valid(w, r) && i <= j < |r.states| && OnTrack(w, r.states[i], k, h) && LeftAlone(r, i, j, k, h, skip)
    ensures Advances(w, r.states[i], r.states[j], k, h)
    decreases j
  {
    hide Inv, Apply, Enabled, OnTrack, Undisturbing;
    if i < j {
      RankNeverFalls(w, r, i, j - 1, k, h, skip);
      RankRises(w, r, j - 1, k, h, skip);
    }
  }

  lemma RankRises(w: World, r: Run, i: nat, k: Key, h: Key, skip: bool)
    requires Sound(w) && Valid(w, r) && i < |r.steps| && OnTrack(w, r.states[i], k, h) && Undisturbing(r.steps[i], k, h, skip)
    ensures Advances(w, r.states[i], r.states[i + 1], k, h)
    ensures (r.states[i].machines[k].installer || skip) && Responsible(r.steps[i], k, h, Rank(r.states[i], k, h)) ==> Rank(r.states[i + 1], k, h) > Rank(r.states[i], k, h)
  {
    hide Inv, Apply, Enabled, Undisturbing, NodeGood;
    Invariant(w, r, i);
    RunNodeGood(w, r, i, NodeOf(r.states[i], k, h));
    assert Next(w, r, i);
    StepAdvances(w, r.states[i], r.steps[i], k, h, skip);
  }

  /** A machine whose ID matches keeps it. */
  lemma {:induction false} RunMatches(w: World, r: Run, i: nat, j: nat, k: Key, h: Key, skip: bool)
    requires Sound(w) && Valid(w, r) && i <= j < |r.states| && OnTrack(w, r.states[i], k, h) && LeftAlone(r, i, j, k, h, skip)
    requires IdMatches(r.states[i], k, h)
    ensures k in r.states[j].machines && IdMatches(r.states[j], k, h)
    decreases j
  {
    hide Inv, Apply, Enabled, Undisturbing, NodeGood, IdMatches;
    if i < j {
      RunMatches(w, r, i, j - 1, k, h, skip);
      RankNeverFalls(w, r, i, j - 1, k, h, skip);
      Invariant(w, r, j - 1);
      RunNodeGood(w, r, j - 1, NodeOf(r.states[j - 1], k, h));
      assert Next(w, r, j - 1);
      StepMatches(w, r.states[j - 1], r.steps[j - 1], k, h, skip);
    }
  }

  /** From `i` on the rank has been at least `rank`; the responsible pass at `n` makes it more. */
  lemma Phase(w: World, r: Run, i: nat, n: nat, k: Key, h: Key, skip: bool, rank: nat)
    requires Sound(w) && Valid(w, r) && i <= n < |r.steps| && OnTrack(w, r.states[i], k, h) && LeftAlone(r, i, n + 1, k, h, skip)
    requires (r.states[i].machines[k].installer || skip) && Rank(r.states[i], k, h) >= rank && Responsible(r.steps[n], k, h, rank)
    ensures OnTrack(w, r.states[n + 1], k, h) && Rank(r.states[n + 1], k, h) > rank
    ensures r.states[n + 1].machines[k].installer || skip
  {
    hide Apply, Enabled, OnTrack, Undisturbing, Rank;
    RankNeverFalls(w, r, i, n, k, h, skip);
    RankRises(w, r, n, k, h, skip);
  }

  lemma TopRank(w: World, s: System, k: Key, h: Key)
    requires OnTrack(w, s, k, h)
    ensures Rank(s, k, h) <= 4 && (Rank(s, k, h) == 4 ==> s.machines[k].status == HostReady)
  {
  }

  /** One pass of each responsible controller in turn, anywhere in the run and with anything that
      others do in between, makes the machine ready for good, with the provider ID of its node. */
  lemma Converges(w: World, r: Run, i: nat, a: nat, b: nat, c: nat, d: nat, j: nat, k: Key, h: Key, skip: bool)
    requires Sound(w) && Valid(w, r) && i <= a < b < c < d < j < |r.states|
    requires OnTrack(w, r.states[i], k, h) && IdMatches(r.states[i], k, h) && LeftAlone(r, i, j, k, h, skip)
    requires r.states[i].machines[k].installer || skip
    requires r.steps[a].ConfigStep? && r.steps[a].k == k && r.steps[b].MachineStep? && r.steps[b].k == k
    requires r.steps[c].AgentStep? && r.steps[c].h == h && r.steps[d].MachineStep? && r.steps[d].k == k
    ensures OnTrack(w, r.states[j], k, h) && Rank(r.states[j], k, h) == 4 && r.states[j].machines[k].status == HostReady && IdMatches(r.states[j], k, h)
  {
    hide Apply, Enabled, OnTrack, Undisturbing, IdMatches, Rank;
    RunMatches(w, r, i, j, k, h, skip);
    Phase(w, r, i, a, k, h, skip, 0);
    Phase(w, r, a + 1, b, k, h, skip, 1);
    Phase(w, r, b + 1, c, k, h, skip, 2);
    Phase(w, r, c + 1, d, k, h, skip, 3);
    RankNeverFalls(w, r, d + 1, j, k, h, skip);
    TopRank(w, r.states[j], k, h);
  }

  // ---------------------------------------------------------------- how a machine gets on track

  /** The platform that the machine will have on record once it has this host. */
  function Platform(m: Machine, host: Host): string {
    if m.hostInfo != "" then m.hostInfo else host.details
  }

  lemma AttachView(w: World, s: System, k: Key, e: MachineEnv, h: Key)
    requires Live(s, k) && Clear(e) && Attaches(s, k, e) && e.pick == Some(h) && h in s.hosts
    requires Unreserved(s.hosts[h])
    requires k in s.configs && s.configs[k].ready ==> s.configs[k].install.Some? && s.configs[k].uninstall.Some?
    ensures var v, m, host := HandedOver(w, s, k, e), s.machines[k], s.hosts[h];
            var b := Reserved(host, k, m.cluster, w.tag(k), s.dataSecret[k], e);
            var c := if k in s.configs then s.configs[k] else NEW_CONFIG;
            && v.m == m.(finalizer := true, status := NotReady(InstallationSecretNotAvailable), hostInfo := Platform(m, host))
            && v.done == (m.installer && !c.ready) && (m.installer ==> v.config == Some(c))
            && v.host.Some? && v.host.value == b.(installSecret := v.host.value.installSecret, uninstallSecret := v.host.value.uninstallSecret)
            && (v.host.value.installSecret.Some? ==> m.installer && c.ready)
  {
    var b := Reserved(s.hosts[h], k, s.machines[k].cluster, w.tag(k), s.dataSecret[k], e);
    assert b == s.hosts[h].(machineRef := b.machineRef, labels := b.labels, bootstrapSecret := b.bootstrapSecret, notes := b.notes);
    hide Reserved, WithPaused;
  }

  lemma AttachMachine(w: World, s: System, k: Key, e: MachineEnv)
    requires Live(s, k) && Clear(e) && e.fetched.None? && e.pick.Some? && e.pick.value in s.hosts
    requires HandedOver(w, s, k, e).host.Some?
    ensures var v, m := HandedOver(w, s, k, e), NormalView(w, s, k, e).m;
            && NormalView(w, s, k, e).host == v.host && NormalView(w, s, k, e).config == v.config
            && m == v.m.(status := m.status, ready := m.ready, providerID := m.providerID)
            && (v.done ==> m == v.m)
            && (m.status != v.m.status ==> m.ready && m.providerID != "" && NormalView(w, s, k, e).node == Some(m.providerID))
  {
    HandedOverNode(w, s, k, e);
    hide HandedOver, NormalView, ProviderId.Accepts;
  }

  lemma AttachWrites(w: World, s: System, k: Key, e: MachineEnv)
    requires k in s.machines && FetchedOk(w, s, k, e) && PickOk(s, k, e)
    requires Clear(e) && e.fetched.None? && e.pick.Some? && !s.machines[k].deleting
    requires var v := NormalView(w, s, k, e); v.host.Some? && !v.m.deleting
    ensures var t, v := MachinePass(w, s, k, e), NormalView(w, s, k, e);
            && k in t.machines && t.machines[k] == v.m
            && (v.config.Some? ==> k in t.configs && t.configs[k] == (if k in s.configs then s.configs[k] else v.config.value))
            && e.pick.value in t.hosts && t.hosts[e.pick.value] == v.host.value
            && (v.node.Some? ==> NodeKey(v.m, e) in t.nodes && t.nodes[NodeKey(v.m, e)] == v.node.value)
  {
    var v := PassView(w, s, k, e);
    assert v == NormalView(w, s, k, e);
    WriteBackNodes(s, k, e, v);
    hide NormalView, PassView, WriteBack;
    WriteBackHosts(s, k, e, v);
    WriteBackFrame(s, k, e, v);
    WriteBackMachines(s, k, e, v);
  }

  lemma AttachTrack(w: World, s: System, k: Key, e: MachineEnv, h: Key)
    requires Live(s, k) && FetchedOk(w, s, k, e) && PickOk(s, k, e)
    requires Clear(e) && Attaches(s, k, e) && e.pick == Some(h) && Unreserved(s.hosts[h])
    requires k in s.configs && s.configs[k].ready ==> s.configs[k].install.Some? && s.configs[k].uninstall.Some?
    requires s.machines[k].installer ==> w.scripts(k, Platform(s.machines[k], s.hosts[h])).Some?
    ensures OnTrack(w, MachinePass(w, s, k, e), k, h) && IdMatches(MachinePass(w, s, k, e), k, h)
    ensures MachinePass(w, s, k, e).machines[k].installer == s.machines[k].installer
  {
    hide MachinePass, NormalView, HandedOver, BaseVersion;
    AttachView(w, s, k, e, h);
    AttachMachine(w, s, k, e);
    AttachWrites(w, s, k, e);
  }

  /** A reservation without faults, of a host whose platform is supported, puts the machine on track. */
  lemma AttachedIsOnTrack(w: World, s: System, k: Key, e: MachineEnv, h: Key)
    requires Inv(w, s) && Live(s, k) && FetchedOk(w, s, k, e) && PickOk(s, k, e)
    requires Clear(e) && Attaches(s, k, e) && e.pick == Some(h)
    requires s.machines[k].installer ==> w.scripts(k, Platform(s.machines[k], s.hosts[h])).Some?
    ensures OnTrack(w, MachinePass(w, s, k, e), k, h) && IdMatches(MachinePass(w, s, k, e), k, h)
    ensures MachinePass(w, s, k, e).machines[k].installer == s.machines[k].installer
  {
    Observations(w, s, k, e);
    if k in s.configs { assert ConfigOk(w, s, k, s.configs[k]); }
    hide Inv, MachinePass, OnTrack, IdMatches;
    AttachTrack(w, s, k, e, h);
  }

  /** Step `n` of the run reserves the supported host `h` for machine `k` without faults. */
  predicate Attachment(w: World, r: Run, n: nat, k: Key, h: Key)
    requires n < |r.steps| && n < |r.states|
  {
    var s, step := r.states[n], r.steps[n];
    && step.MachineStep? && step.k == k && Clear(step.env) && step.env.pick == Some(h)
    && Live(s, k) && Attaches(s, k, step.env)
    && h in s.hosts && (s.machines[k].installer ==> w.scripts(k, Platform(s.machines[k], s.hosts[h])).Some?)
  }

  lemma AttachmentOnTrack(w: World, r: Run, n: nat, k: Key, h: Key)
    requires Sound(w) && Valid(w, r) && n < |r.steps| && Attachment(w, r, n, k, h)
    ensures OnTrack(w, r.states[n + 1], k, h) && IdMatches(r.states[n + 1], k, h)
    ensures r.states[n + 1].machines[k].installer == r.states[n].machines[k].installer
  {
    Invariant(w, r, n);
    assert Next(w, r, n);
    hide Inv, OnTrack, IdMatches, MachinePass;
    AttachedIsOnTrack(w, r.states[n], k, r.steps[n].env, h);
  }

  /** From the reservation to the ready machine: a reservation without faults of a supported host,
      and then one pass of each responsible controller in turn. */
  lemma AttachedConverges(w: World, r: Run, n: nat, a: nat, b: nat, c: nat, d: nat, j: nat, k: Key, h: Key, skip: bool)
    requires Sound(w) && Valid(w, r) && n < a < b < c < d < j < |r.states|
    requires Attachment(w, r, n, k, h) && LeftAlone(r, n + 1, j, k, h, skip)
    requires r.states[n].machines[k].installer || skip
    requires r.steps[a].ConfigStep? && r.steps[a].k == k && r.steps[b].MachineStep? && r.steps[b].k == k
    requires r.steps[c].AgentStep? && r.steps[c].h == h && r.steps[d].MachineStep? && r.steps[d].k == k
    ensures var t := r.states[j];
            && k in t.machines && t.machines[k].status == HostReady && t.machines[k].ready
            && NodeOf(t, k, h) in t.nodes && t.machines[k].providerID == t.nodes[NodeOf(t, k, h)] != ""
  {
    assert |r.states| == |r.steps| + 1;
    hide Valid, LeftAlone, Attachment;
    AttachmentOnTrack(w, r, n, k, h);
    Converges(w, r, n + 1, a, b, c, d, j, k, h, skip);
  }
}
