/** What can still become of a machine that has its host: it is stalled for good, or it can still get
    ready. Rests on what every run keeps between a machine, its config, its host and its node. */
module Prospects {
  import opened Objects
  import opened Agent
  import opened Manager
  import opened Protocol
  import opened Effects
  import opened Reservation
  import opened HostMoves
  import opened Nodes
  import opened Convergence
  import opened Stalls
  import opened Schedules
  import ProviderId

  // ---------------------------------------------------------------- what every run keeps

  /** A machine that holds a host: the host is labelled with its cluster, its config exists, and a
      handed script, a ready machine and a joined node have the cause they should have. */
  predicate InOrder(s: System, k: Key, h: Key)
    requires k in s.machines
  {
    && h in s.hosts
    && var m, host := s.machines[k], s.hosts[h];
       && ClusterName in host.labels && host.labels[ClusterName] == m.cluster
       && (m.installer ==> k in s.configs && (m.status == HostReady ==> s.configs[k].ready))
       && (host.installSecret.Some? ==> m.installer && s.configs[k].ready)
       && (host.node.IsTrue? ==> NodeOf(s, k, h) in s.nodes)
  }

  predicate Settled(st: MachineStatus) {
    st == NotReady(InstallationSecretNotAvailable) || st == HostReady
  }

  /** A machine without host has never been told to wait for scripts, nor been ready. */
  predicate Story(s: System, k: Key) {
    k in s.machines ==>
      if k !in s.attachedTo then !Settled(s.machines[k].status)
      else !s.machines[k].deleting ==> InOrder(s, k, s.attachedTo[k])
  }

  lemma SpotStory(s: System, t: System, k: Key, h: Key)
    requires k in s.machines && !s.machines[k].deleting && InOrder(s, k, h) && SameSpot(s, t, k, h)
    ensures InOrder(t, k, h)
  {
    assert ClusterName in RESERVED_LABELS;
    hide ProviderId.Accepts;
  }

  // ---------------------------------------------------------------- the machine's own reconcile

  /** The parts of the view of a normal reconcile that matter here. */
  lemma NormalStory(w: World, s: System, k: Key, e: MachineEnv)
    requires Normal(s, k, e)
    ensures var v, m := NormalView(w, s, k, e), s.machines[k];
            && (v.m.status == NotReady(InstallationSecretNotAvailable) ==> Attaches(s, k, e) || v.m.status == m.status)
            && (v.m.status == HostReady && m.status != HostReady ==> e.fetched.Some? || Attaches(s, k, e))
            && (Attaches(s, k, e) && m.installer ==> v.config.Some?)
            && (v.m.status == HostReady && m.status != HostReady && m.installer ==>
                  (v.host.Some? && v.host.value.installSecret.Some?))
  {
    hide ProviderId.SetNodeProviderID, BaseVersion, WithPaused;
  }

  /** A script is handed over only by a machine with an installer, from a config that is ready. */
  lemma NormalHands(w: World, s: System, k: Key, e: MachineEnv)
    requires Normal(s, k, e) && (e.fetched.Some? || Attaches(s, k, e))
    ensures var x, a := NormalView(w, s, k, e).host, s.hosts[Target(e).value];
            x.Some? && (x.value.installSecret != a.installSecret ==> s.machines[k].installer && k in s.configs && s.configs[k].ready)
  {
    hide UpdateNode, BaseVersion;
  }

  /** What any reconcile of the machine leaves in the store, as far as it matters here. */
  lemma OwnLeaves(w: World, s: System, k: Key, e: MachineEnv)
    requires k in s.machines && FetchedOk(w, s, k, e) && PickOk(s, k, e) && e.resolvable
    ensures var t, v := MachinePass(w, s, k, e), PassView(w, s, k, e);
            && (k in t.machines ==> t.machines[k] == if e.lost then s.machines[k] else v.m)
            && (k in s.configs ==> k in t.configs && t.configs[k] == s.configs[k])
            && (v.config.Some? ==> k in t.configs)
            && t.attachedTo == (if Attaches(s, k, e) then s.attachedTo[k := e.pick.value] else s.attachedTo)
            && (v.host.Some? ==> Target(e).Some? && Target(e).value in t.hosts && t.hosts[Target(e).value] == v.host.value)
            && (v.host.None? ==> t.hosts == s.hosts)
            && v.m.cluster == s.machines[k].cluster && v.m.installer == s.machines[k].installer && v.m.deleting == s.machines[k].deleting
  {
    PassHosts(w, s, k, e);
    ViewKeeps(w, s, k, e);
    hide PassView, WriteBack, Attaches;
    WriteBackFrame(s, k, e, PassView(w, s, k, e));
    WriteBackMachines(s, k, e, PassView(w, s, k, e));
  }

  lemma ViewKeeps(w: World, s: System, k: Key, e: MachineEnv)
    requires k in s.machines && (e.fetched.Some? ==> e.fetched.value in s.hosts) && (e.pick.Some? ==> e.pick.value in s.hosts) && e.resolvable
    ensures var v := PassView(w, s, k, e);
            v.m.cluster == s.machines[k].cluster && v.m.installer == s.machines[k].installer && v.m.deleting == s.machines[k].deleting
  {
    if !e.paused && !s.machines[k].deleting { NormalMachine(w, s, k, e); }
    hide NormalView;
  }

  lemma FirstHost(w: World, s: System, k: Key, e: MachineEnv)
    requires Live(s, k) && FetchedOk(w, s, k, e) && PickOk(s, k, e) && Attaches(s, k, e) && Unreserved(s.hosts[e.pick.value])
    requires !Settled(s.machines[k].status)
    ensures var t := MachinePass(w, s, k, e); k in t.machines ==> InOrder(t, k, e.pick.value)
  {
    assert PassView(w, s, k, e) == NormalView(w, s, k, e);
    hide NormalView, PassView, MachinePass, BaseVersion, FetchedOk, PickOk;
    OwnLeaves(w, s, k, e);
    NormalHost(w, s, k, e);
    NormalStory(w, s, k, e);
    NormalHands(w, s, k, e);
  }

  lemma SameHost(w: World, s: System, k: Key, e: MachineEnv, h: Key)
    requires Live(s, k) && FetchedOk(w, s, k, e) && PickOk(s, k, e) && e.resolvable && e.fetched == Some(h) && InOrder(s, k, h)
    requires Moved(s, MachinePass(w, s, k, e), k, e, h) && s.hosts[h].machineRef.Some?
    requires NodeMoves(s, MachinePass(w, s, k, e), NodeOf(s, k, h))
    ensures var t := MachinePass(w, s, k, e); k in t.machines ==> InOrder(t, k, h)
  {
    assert ClusterName in RESERVED_LABELS;
    OwnLeaves(w, s, k, e);
    if e.paused { PauseHands(s, k, e); } else {
      NormalStory(w, s, k, e);
      NormalHands(w, s, k, e);
    }
    hide NormalView, MachinePass, ProviderId.Accepts;
    hide FetchedOk, PickOk;
  }

  lemma PauseHands(s: System, k: Key, e: MachineEnv)
    requires k in s.machines && e.fetched.Some? && e.fetched.value in s.hosts
    ensures var v := PausedView(s, k, e);
            && v.m.status != HostReady && (v.host.Some? ==> v.host.value.installSecret == s.hosts[e.fetched.value].installSecret)
  {
  }

  /** No host, and none now. */
  lemma StillNone(w: World, s: System, k: Key, e: MachineEnv)
    requires k in s.machines && FetchedOk(w, s, k, e) && PickOk(s, k, e) && e.resolvable && e.fetched.None? && !Attaches(s, k, e)
    requires !Settled(s.machines[k].status)
    ensures var t := MachinePass(w, s, k, e); k in t.machines ==> !Settled(t.machines[k].status)
  {
    OwnLeaves(w, s, k, e);
    if !e.paused && !s.machines[k].deleting { NormalStory(w, s, k, e); }
    hide NormalView, MachinePass, FetchedOk;
  }

  lemma OwnStory(w: World, s: System, k: Key, e: MachineEnv)
    requires Inv(w, s) && Story(s, k) && k in s.machines && FetchedOk(w, s, k, e) && PickOk(s, k, e) && ProviderId.LegalSuffix(e.suffix)
    ensures Story(MachinePass(w, s, k, e), k)
  {
    hide MachinePass, PassView, InOrder, Settled;
    Observations(w, s, k, e);
    if e.fetched.Some? { assert HostOk(w, s, e.fetched.value, s.hosts[e.fetched.value]); }
    if e.resolvable {
      OwnLeaves(w, s, k, e);
      if k !in s.attachedTo {
        if Attaches(s, k, e) { FirstHost(w, s, k, e); } else { StillNone(w, s, k, e); }
      } else if Live(s, k) {
        OwnHostFound(w, s, k, e);
        ReconcileMoves(w, s, k, e, s.attachedTo[k]);
        LegalHosts(w, s);
        ReconcileNodes(w, s, k, e, NodeOf(s, k, s.attachedTo[k]));
        SameHost(w, s, k, e, s.attachedTo[k]);
      }
    } else {
      Unresolved(w, s, k, e);
    }
  }

  // ---------------------------------------------------------------- every other step

  /** How the steps of others may change a machine and its attachment. */
  predicate SameMachine(s: System, t: System, k: Key) {
    && (k in t.attachedTo <==> k in s.attachedTo) && (k in s.attachedTo ==> t.attachedTo[k] == s.attachedTo[k])
    && (k in s.machines && k in t.machines ==>
          t.machines[k].status == s.machines[k].status && (s.machines[k].deleting ==> t.machines[k].deleting))
    && (k !in s.machines && k in t.machines ==> k !in s.attachedTo && t.machines[k].status == NoStatus)
  }

  lemma PutSameMachine(s: System, x: Key, m: Machine, k: Key)
    requires x in s.machines && m.status == s.machines[x].status && (s.machines[x].deleting ==> m.deleting)
    ensures SameMachine(s, PutMachine(s, x, m), k)
  {
  }

  lemma OutsideMachine(w: World, s: System, step: Step, k: Key)
    requires s.attachedTo.Keys <= s.used && Enabled(w, s, step) && IsOutside(step)
    ensures SameMachine(s, Apply(w, s, step), k)
  {
    hide MachinePass, HostPass, ConfigPass, ApplyAgent, PutHost, PutConfig, PutMachine;
    if step.DeleteMachine? { PutSameMachine(s, step.k, s.machines[step.k].(deleting := true), k); }
    else if step.DropForeign? { PutSameMachine(s, step.k, s.machines[step.k].(foreign := false), k); }
  }

  lemma OtherReconcileMachine(w: World, s: System, x: Key, e: MachineEnv, k: Key)
    requires x in s.machines && x != k && FetchedOk(w, s, x, e) && PickOk(s, x, e)
    ensures SameMachine(s, MachinePass(w, s, x, e), k)
  {
    hide PassView, WriteBack, Attaches;
    if e.resolvable {
      PassHosts(w, s, x, e);
      WriteBackMachines(s, x, e, PassView(w, s, x, e));
    }
  }

  lemma OthersMachine(w: World, s: System, step: Step, k: Key)
    requires s.attachedTo.Keys <= s.used && Enabled(w, s, step) && !(step.MachineStep? && step.k == k)
    ensures SameMachine(s, Apply(w, s, step), k)
  {
    hide MachinePass, HostPass, ConfigPass, ApplyAgent;
    if IsOutside(step) { OutsideMachine(w, s, step, k); hide Apply, Enabled; }
    else if step.MachineStep? { OtherReconcileMachine(w, s, step.k, step.env, k); }
  }

  lemma ConfigStory(w: World, s: System, x: Key, blocked: bool, stop: ConfigStop, lost: bool, k: Key, h: Key)
    requires Owns(s, k, h) && InOrder(s, k, h) && (k in s.configs ==> !s.configs[k].deleting)
    ensures InOrder(ConfigPass(w, s, x, blocked, stop, lost), k, h)
  {
    hide StoreScripts;
  }

  lemma AgentStory(s: System, x: Key, skip: bool, o: Outcomes, lost: bool, k: Key, h: Key)
    requires x in s.hosts && Owns(s, k, h) && InOrder(s, k, h) && Cleanup !in s.hosts[h].notes
    ensures InOrder(ApplyAgent(s, x, skip, o, lost), k, h)
  {
    AgentNodes(s, x, skip, o, lost, NodeOf(s, k, h));
    AgentMoves(s.hosts[x], skip, o);
    if x == h {
      TrueMeansJoined(s.hosts[h], skip, o);
      if Joins(AgentPass(s.hosts[h], skip, o).events) { JoinMakesNode(s, h, skip, o, lost); }
    }
    hide AgentPass, ApplyAgent, Joins, ProviderId.Accepts;
  }

  lemma TrueMeansJoined(host: Host, skip: bool, o: Outcomes)
    requires Cleanup !in host.notes
    ensures var p := AgentPass(host, skip, o); p.host.node.IsTrue? ==> host.node.IsTrue? || Joins(p.events)
  {
  }

  lemma OthersStory(w: World, s: System, step: Step, k: Key, h: Key)
    requires Inv(w, s) && Enabled(w, s, step) && !(step.MachineStep? && step.k == k) && step != DeleteMachine(k)
    requires Owns(s, k, h) && InOrder(s, k, h)
    ensures var t := Apply(w, s, step); k in t.machines && InOrder(t, k, h)
  {
    hide Inv, InOrder, Enabled, Apply, MachinePass, HostPass, ConfigPass, ApplyAgent, Stocked;
    Holds(w, s, k, h);
    PassApplies(w, s, step);
    if IsOutside(step) {
      OutsideSpot(w, s, step, k, h);
      SpotStory(s, Apply(w, s, step), k, h);
    } else if step.ConfigStep? {
      ConfigStory(w, s, step.k, step.blocked, step.stop, step.lostConfig, k, h);
    } else if step.AgentStep? {
      AgentStory(s, step.h, step.skip, step.outcomes, step.lost, k, h);
    } else {
      OthersPlace(w, s, step, k, h);
      SpotStory(s, Apply(w, s, step), k, h);
    }
  }

  lemma StepStory(w: World, s: System, step: Step, k: Key)
    requires Inv(w, s) && Story(s, k) && Enabled(w, s, step)
    ensures Story(Apply(w, s, step), k)
  {
    assert s.attachedTo.Keys <= s.used && (Live(s, k) && k in s.attachedTo ==> Held(s, k));
    hide Inv, InOrder, Settled, MachinePass;
    if step.MachineStep? && step.k == k {
      hide Story;
      OwnStory(w, s, k, step.env);
    } else {
      hide Apply, Enabled;
      OthersMachine(w, s, step, k);
      if Live(s, k) && k in s.attachedTo {
        if step == DeleteMachine(k) { DeletedIsDeleting(w, s, k); } else { OthersStory(w, s, step, k, s.attachedTo[k]); }
      }
    }
    NeverTold();
  }

  lemma NeverTold()
    ensures !Settled(NoStatus)
  {
  }

  lemma DeletedIsDeleting(w: World, s: System, k: Key)
    requires k in s.machines
    ensures var t := Apply(w, s, DeleteMachine(k)); k in t.machines ==> t.machines[k].deleting
  {
  }

  lemma {:induction false} RunStory(w: World, r: Run, i: nat, k: Key)
    requires Sound(w) && Valid(w, r) && i < |r.states|
    ensures Story(r.states[i], k)
  {
    hide Inv, Apply, Enabled;
    if i > 0 {
      RunStory(w, r, i - 1, k);
      Invariant(w, r, i - 1);
      assert Next(w, r, i - 1);
      hide Story;
      StepStory(w, r.states[i - 1], r.steps[i - 1], k);
    }
  }

  // ---------------------------------------------------------------- a reservation that stalls

  /** A reservation without scripts at hand stalls the machine at once if and only if the patch of the
      ByoMachine, with the reason in it, is lost. */
  lemma AttachStallsIff(w: World, s: System, k: Key, e: MachineEnv)
    requires Inv(w, s) && Story(s, k) && Live(s, k) && s.machines[k].installer
    requires FetchedOk(w, s, k, e) && PickOk(s, k, e) && Attaches(s, k, e) && !(k in s.configs && s.configs[k].ready)
    ensures Stalled(MachinePass(w, s, k, e), k) <==> e.lost
  {
    Observations(w, s, k, e);
    hide Inv, MachinePass, PassView;
    OwnLeaves(w, s, k, e);
    AttachReason(w, s, k, e);
    OwnStays(w, s, k, e);
    if k !in s.configs { OwnConfigStays(w, s, k, e); }
    hide FetchedOk, PickOk;
  }

  lemma AttachReason(w: World, s: System, k: Key, e: MachineEnv)
    requires Live(s, k) && s.machines[k].installer && FetchedOk(w, s, k, e) && PickOk(s, k, e) && Attaches(s, k, e)
    requires Unreserved(s.hosts[e.pick.value]) && !(k in s.configs && s.configs[k].ready)
    ensures var v := PassView(w, s, k, e);
            v.m.status == NotReady(InstallationSecretNotAvailable) && v.config.Some? && v.host.Some? && v.host.value.installSecret.None?
  {
    hide BaseVersion, ProviderId.SetNodeProviderID;
  }

  lemma OwnStays(w: World, s: System, k: Key, e: MachineEnv)
    requires Live(s, k) && FetchedOk(w, s, k, e) && PickOk(s, k, e) && e.resolvable
    ensures k in MachinePass(w, s, k, e).machines
  {
    ViewKeeps(w, s, k, e);
    hide PassView, WriteBack;
    WriteBackMachines(s, k, e, PassView(w, s, k, e));
  }

  lemma OwnConfigStays(w: World, s: System, k: Key, e: MachineEnv)
    requires k in s.machines && FetchedOk(w, s, k, e) && PickOk(s, k, e) && e.resolvable && k !in s.configs
    ensures var t := MachinePass(w, s, k, e); k in t.configs ==> !t.configs[k].ready
  {
    ViewFacts(w, s, k, e);
    hide PassView, WriteBack;
    WriteBackFrame(s, k, e, PassView(w, s, k, e));
  }

  // ---------------------------------------------------------------- stalled, or able to get ready

  ghost predicate Spares(steps: seq<Step>, k: Key) {
    forall i :: 0 <= i < |steps| ==> steps[i] != DeleteMachine(k)
  }

  predicate IsReady(s: System, k: Key) {
    k in s.machines && s.machines[k].status == HostReady
  }

  /** Some steps, none of which deletes the machine, lead to a state in which it is ready. Agents act
      only on hosts that are not paused. */
  ghost predicate CanGetReady(w: World, s: System, k: Key) {
    exists steps, t :: Plays(w, s, steps, t) && Spares(steps, k) && IsReady(t, k)
  }

  /** No platform that the machine reports, or can still come to report, is supported. */
  ghost predicate Hopeless(w: World, k: Key, m: Machine) {
    forall p :: m.hostInfo == "" || p == m.hostInfo ==> w.scripts(k, p).None?
  }

  /** The machine is without scripts, and does not ask for any, or asks in vain. */
  ghost predicate Barred(w: World, s: System, k: Key) {
    Stalled(s, k) || (Unready(s, k) && Hopeless(w, k, s.machines[k]))
  }

  lemma HopelessStays(w: World, k: Key, m: Machine, n: Machine)
    requires NoBetter(m, n) && Hopeless(w, k, m)
    ensures Hopeless(w, k, n) && !Waits(w, k, m)
  {
  }

  lemma StepBarred(w: World, s: System, step: Step, k: Key)
    requires Inv(w, s) && Barred(w, s, k) && Enabled(w, s, step) && step != DeleteMachine(k)
    ensures Barred(w, Apply(w, s, step), k)
  {
    hide Inv, Apply, Enabled, Hopeless;
    if Stalled(s, k) { StepStalled(w, s, step, k); }
    else {
      HopelessStays(w, k, s.machines[k], s.machines[k]);
      StepUnready(w, s, step, k);
      HopelessStays(w, k, s.machines[k], Apply(w, s, step).machines[k]);
    }
  }

  lemma {:induction false} BarredLeads(w: World, s: System, steps: seq<Step>, t: System, k: Key)
    requires Sound(w) && Inv(w, s) && Barred(w, s, k) && Leads(w, s, steps, t) && Spares(steps, k)
    ensures Barred(w, t, k)
    decreases |steps|
  {
    hide Inv, Enabled, Apply, Barred;
    if steps != [] {
      StepKeeps(w, s, steps[0]);
      StepBarred(w, s, steps[0], k);
      assert forall i :: 0 <= i < |steps[1..]| ==> steps[1..][i] == steps[i + 1];
      BarredLeads(w, Apply(w, s, steps[0]), steps[1..], t, k);
    }
  }

  /** A state from which the machine can be driven. */
  ghost predicate Driven(w: World, s: System, k: Key, h: Key, skip: bool) {
    Inv(w, s) && OnTrack(w, s, k, h) && NodeGood(s, NodeOf(s, k, h)) && (s.machines[k].installer || skip)
  }

  lemma Drive(w: World, s: System, k: Key, h: Key, skip: bool, step: Step)
    requires Sound(w) && Driven(w, s, k, h, skip) && Enabled(w, s, step) && Undisturbing(step, k, h, skip)
    ensures var t := Apply(w, s, step);
            && Driven(w, t, k, h, skip) && Rank(t, k, h) >= Rank(s, k, h)
            && (Responsible(step, k, h, Rank(s, k, h)) ==> Rank(t, k, h) > Rank(s, k, h))
  {
    assert k in s.machines;
    hide Inv, OnTrack, Enabled, Apply, Rank;
    StepKeeps(w, s, step);
    StepAdvances(w, s, step, k, h, skip);
    StepNodes(w, s, step, NodeOf(s, k, h));
    hide ProviderId.Accepts;
  }

  lemma ReadyAfter(w: World, s: System, step: Step, k: Key)
    requires Enabled(w, s, step) && Heard(s, step) && step != DeleteMachine(k) && CanGetReady(w, Apply(w, s, step), k)
    ensures CanGetReady(w, s, k)
  {
    hide Enabled, Apply, Heard;
    var steps, t :| Plays(w, Apply(w, s, step), steps, t) && Spares(steps, k) && IsReady(t, k);
    PlaysOne(w, s, step);
    PlaysAppend(w, s, [step], Apply(w, s, step), steps, t);
    assert Spares([step] + steps, k);
  }

  /** A machine on track gets ready by the passes that raise its rank. */
  lemma {:induction false} TrackGetsReady(w: World, s: System, k: Key, h: Key, skip: bool)
    requires Sound(w) && Driven(w, s, k, h, skip)
    ensures CanGetReady(w, s, k)
    decreases 4 - Rank(s, k, h)
  {
    assert Owns(s, k, h);
    hide Inv, Enabled, Apply, OnTrack, CanGetReady;
    TopRank(w, s, k, h);
    if Rank(s, k, h) == 4 {
      ReadyNow(w, s, k);
    } else {
      var step := RaisingStep(s, k, h, skip);
      NeverStuck(w, s, k, h, skip);
      Drive(w, s, k, h, skip, step);
      TopRank(w, Apply(w, s, step), k, h);
      TrackGetsReady(w, Apply(w, s, step), k, h, skip);
      ReadyAfter(w, s, step, k);
    }
  }

  lemma ReadyNow(w: World, s: System, k: Key)
    requires IsReady(s, k)
    ensures CanGetReady(w, s, k)
  {
    assert Plays(w, s, [], s) && Spares([], k);
  }

  /** The platform of the machine is supported, or its scripts are stored already. */
  predicate Supported(w: World, s: System, k: Key, h: Key) {
    && k in s.machines && h in s.hosts
    && ((k in s.configs && s.configs[k].ready) || w.scripts(k, Platform(s.machines[k], s.hosts[h])).Some?)
  }

  /** One clear reconcile puts a machine that is not stalled on track. */
  lemma BackOnTrack(w: World, s: System, k: Key, h: Key, e: MachineEnv)
    requires Sound(w) && Owns(s, k, h) && InOrder(s, k, h) && s.machines[k].installer && Supported(w, s, k, h)
    requires s.configs[k].ready || s.machines[k].status == NotReady(InstallationSecretNotAvailable)
    requires Clear(e) && e.fetched == Some(h) && FetchedOk(w, s, k, e) && PickOk(s, k, e) && k in s.dataSecret
    requires NodeGood(s, NodeOf(s, k, h)) && NodeMoves(s, MachinePass(w, s, k, e), NodeOf(s, k, h))
    requires s.configs[k].ready ==> s.configs[k].install.Some? && s.configs[k].uninstall.Some?
    ensures var t := MachinePass(w, s, k, e); OnTrack(w, t, k, h) && t.machines[k].installer && NodeOf(t, k, h) == NodeOf(s, k, h)
  {
    hide ProviderId.Accepts, MachinePass, NormalView, HandedOver;
    OwnView(w, s, k, e, h);
    OwnMachine(w, s, k, e, h);
    OwnReconcile(w, s, k, e, h);
    hide FetchedOk, PickOk;
  }

  lemma QuietReconcile(w: World, s: System, k: Key, h: Key)
    requires Inv(w, s) && Owns(s, k, h)
    ensures var e := QUIET.(fetched := Some(h));
            && k in s.dataSecret && FetchedOk(w, s, k, e) && PickOk(s, k, e) && Enabled(w, s, MachineStep(k, e))
            && Apply(w, s, MachineStep(k, e)) == MachinePass(w, s, k, e)
  {
    hide Inv, Stocked, MachinePass;
    Holds(w, s, k, h);
    assert Carries(w, s, h, k);
  }

  lemma NotStalledGetsReady(w: World, s: System, k: Key, h: Key)
    requires Sound(w) && Inv(w, s) && Owns(s, k, h) && InOrder(s, k, h) && s.machines[k].installer && Supported(w, s, k, h)
    requires NodeGood(s, NodeOf(s, k, h)) && !Stalled(s, k)
    ensures CanGetReady(w, s, k)
  {
    hide Inv, Stocked, Enabled, Apply, MachinePass, OnTrack, CanGetReady;
    var e := QUIET.(fetched := Some(h));
    var step := MachineStep(k, e);
    Holds(w, s, k, h);
    QuietReconcile(w, s, k, h);
    StepNodes(w, s, step, NodeOf(s, k, h));
    StepKeeps(w, s, step);
    BackOnTrack(w, s, k, h, e);
    StillGoodNode(s, Apply(w, s, step), NodeOf(s, k, h));
    TrackGetsReady(w, Apply(w, s, step), k, h, false);
    ReadyAfter(w, s, step, k);
  }

  lemma StillGoodNode(s: System, t: System, n: Key)
    requires NodeGood(s, n) && NodeMoves(s, t, n)
    ensures NodeGood(t, n)
  {
    hide ProviderId.Accepts;
  }

  /** A machine without installer is on track as long as it has its host. */
  lemma PlainGetsReady(w: World, s: System, k: Key, h: Key)
    requires Sound(w) && Inv(w, s) && Owns(s, k, h) && InOrder(s, k, h) && !s.machines[k].installer && NodeGood(s, NodeOf(s, k, h))
    ensures CanGetReady(w, s, k)
  {
    hide Inv, CanGetReady, NodeGood;
    TrackGetsReady(w, s, k, h, true);
  }

  lemma RegisterAgain(w: World, s: System, k: Key, h: Key, p: string)
    requires Inv(w, s) && Owns(s, k, h) && InOrder(s, k, h)
    ensures var step := Register(h, map[], p);
            && Enabled(w, s, step) && Apply(w, s, step) == PutHost(s, h, s.hosts[h].(details := p))
            && Owns(Apply(w, s, step), k, h) && InOrder(Apply(w, s, step), k, h)
  {
    assert HostOk(w, s, h, s.hosts[h]);
    hide Inv, MachinePass, HostPass, ConfigPass, ApplyAgent;
  }

  /** A machine that waits for scripts and has reported no platform yet can still come to report a
      supported one. */
  lemma UntoldGetsReady(w: World, s: System, k: Key, h: Key, p: string)
    requires Sound(w) && Inv(w, s) && Owns(s, k, h) && InOrder(s, k, h) && s.machines[k].installer && NodeGood(s, NodeOf(s, k, h))
    requires s.machines[k].hostInfo == "" && w.scripts(k, p).Some? && !Stalled(s, k)
    ensures CanGetReady(w, s, k)
  {
    hide Inv, Enabled, Apply, CanGetReady, NodeGood, InOrder;
    var step := Register(h, map[], p);
    RegisterAgain(w, s, k, h, p);
    StepKeeps(w, s, step);
    var t := Apply(w, s, step);
    SameNode(s, t, k, h);
    NotStalledGetsReady(w, t, k, h);
    ReadyAfter(w, s, step, k);
  }

  lemma SameNode(s: System, t: System, k: Key, h: Key)
    requires k in s.machines && t == s.(hosts := t.hosts) && NodeGood(s, NodeOf(s, k, h))
    ensures NodeGood(t, NodeOf(t, k, h))
  {
  }

  lemma NotBarredGetsReady(w: World, s: System, k: Key, h: Key)
    requires Sound(w) && Inv(w, s) && Owns(s, k, h) && InOrder(s, k, h) && NodeGood(s, NodeOf(s, k, h))
    requires k in s.attachedTo && s.attachedTo[k] == h && !Barred(w, s, k)
    ensures CanGetReady(w, s, k)
  {
    hide Inv, CanGetReady, NodeGood;
    if !s.machines[k].installer {
      PlainGetsReady(w, s, k, h);
    } else if Supported(w, s, k, h) {
      NotStalledGetsReady(w, s, k, h);
    } else {
      assert s.machines[k].hostInfo == "";
      var p :| w.scripts(k, p).Some?;
      UntoldGetsReady(w, s, k, h, p);
    }
  }

  lemma NeverReady(w: World, s: System, k: Key)
    requires Sound(w) && Inv(w, s) && Barred(w, s, k)
    ensures !CanGetReady(w, s, k)
  {
    hide Inv, Enabled, Apply, Leads, Plays;
    forall steps, t | Plays(w, s, steps, t) && Spares(steps, k) ensures !IsReady(t, k) {
      PlaysLeads(w, s, steps, t);
      BarredLeads(w, s, steps, t, k);
    }
  }

  /** In every state of every run a machine that has its host and is not being deleted can still get
      ready if and only if it has no installer, or its scripts are stored, or it waits for scripts and
      some platform that it reports, or can still come to report, is supported. */
  lemma AbleIff(w: World, r: Run, i: nat, k: Key)
    requires Sound(w) && Valid(w, r) && i < |r.states| && Live(r.states[i], k) && k in r.states[i].attachedTo
    ensures var s := r.states[i]; var m := s.machines[k];
            CanGetReady(w, s, k) <==>
              || !m.installer
              || (k in s.configs && s.configs[k].ready)
              || (m.status == NotReady(InstallationSecretNotAvailable) && !Hopeless(w, k, m))
  {
    var s := r.states[i];
    var h := s.attachedTo[k];
    hide Apply, Enabled, NodeGood, Hopeless, CanGetReady;
    Invariant(w, r, i);
    assert Held(s, k);
    hide Inv;
    RunStory(w, r, i, k);
    RunNodeGood(w, r, i, NodeOf(s, k, h));
    if Barred(w, s, k) { NeverReady(w, s, k); } else { NotBarredGetsReady(w, s, k, h); }
  }

  /** With an installer and a supported platform it is stalled, and then nothing but its deletion ends
      that, or some steps still make it ready. */
  lemma StalledOrAble(w: World, r: Run, i: nat, k: Key)
    requires Sound(w) && Valid(w, r) && i < |r.states|
    requires var s := r.states[i];
             && Live(s, k) && k in s.attachedTo && s.machines[k].installer && Supported(w, s, k, s.attachedTo[k])
    ensures CanGetReady(w, r.states[i], k) <==> !Stalled(r.states[i], k)
  {
    hide Apply, Enabled, CanGetReady, Inv, Valid;
    AbleIff(w, r, i, k);
    RunStory(w, r, i, k);
    SupportedHopes(w, r.states[i], k, r.states[i].attachedTo[k]);
    hide Supported, Hopeless;
  }

  /** A platform is supported only where there is hope. */
  lemma SupportedHopes(w: World, s: System, k: Key, h: Key)
    requires Supported(w, s, k, h)
    ensures (k in s.configs && s.configs[k].ready) || !Hopeless(w, k, s.machines[k])
  {
  }
}
