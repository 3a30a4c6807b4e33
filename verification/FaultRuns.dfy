/** Runs from the empty store in which the other faults do their damage. Agents act only on hosts that
    are not paused. */
module FaultRuns {
  import opened Objects
  import opened Agent
  import opened Manager
  import opened Protocol
  import opened Effects
  import opened Reservation
  import opened HostMoves
  import opened HostSecrets
  import opened Leftovers
  import opened Traces
  import opened Cleanliness
  import opened Commands
  import opened Convergence
  import opened Stalls
  import opened Prospects
  import opened Releases
  import opened Schedules
  import opened Spoilings
  import opened Retakes
  import opened Witnesses

  lemma ExtendTwice(s: System, step: Step)
    requires Reached(s) && Enabled(W, s, step) && Heard(s, step)
    requires var t := Apply(W, s, step); t.hosts == s.hosts && Enabled(W, t, step)
    ensures Reached(Apply(W, Apply(W, s, step), step))
  {
    hide Reached, Enabled, Apply;
    Extend(s, step);
    Extend(Apply(W, s, step), step);
  }

  // ---------------------------------------------------------------- lost passes

  const WORK := AgentStep(H, false, ALL_GOOD, true)

  lemma WorkJoins(s: System)
    requires Inv(W, s) && AtSix(s, false)
    ensures Enabled(W, s, WORK) && Heard(s, WORK) && ForgetsJoin(s, WORK, H) && JoinsAt(s, H)
  {
    WaitsForWork(s, false);
    hide Inv;
  }

  /** The agent dies behind a bootstrap, tries again, and has bootstrapped twice. */
  lemma LostJoin() returns (s: System, t: System)
    ensures Reached(s) && JoinsAt(s, H) && Enabled(W, s, WORK) && ForgetsJoin(s, WORK, H)
    ensures t == Apply(W, s, WORK) && Enabled(W, t, WORK)
    ensures Reached(Apply(W, t, WORK)) && !Separated(Trace(Apply(W, t, WORK), H), Joined, Frees)
  {
    hide Inv, AtSix, Reached, Enabled, Apply, ForgetsJoin, JoinsAt, Separated, Heard;
    s := Prepared(false);
    WorkJoins(s);
    t := Apply(W, s, WORK);
    LostJoinRepeats(W, s, WORK, H);
    ExtendTwice(s, WORK);
  }

  lemma WorkResets(s: System)
    requires Inv(W, s) && AtSeven(s) && Cleanup in s.hosts[H].notes
    ensures Enabled(W, s, WORK) && Heard(s, WORK) && LosesReset(s, WORK, H)
  {
    assert SecretOk(UninstallOf(K), s.secrets[UninstallOf(K)]);
    hide Inv, Open;
  }

  /** The agent dies behind the reset of a cleanup, tries again, and has reset twice. */
  lemma LostReset() returns (s: System, t: System)
    ensures Reached(s) && Enabled(W, s, WORK) && LosesReset(s, WORK, H)
    ensures t == Apply(W, s, WORK) && Enabled(W, t, WORK)
    ensures Reached(Apply(W, t, WORK)) && !Separated(Trace(Apply(W, t, WORK), H), CleanupResets, Installed)
  {
    hide Inv, AtSeven, CleanAt, Reached, Enabled, Apply, LosesReset, Separated, Heard;
    s := Marked();
    WorkResets(s);
    t := Apply(W, s, WORK);
    LostResetRepeats(W, s, WORK, H);
    ExtendTwice(s, WORK);
  }

  // ---------------------------------------------------------------- a second machine

  const K2 := Key("n", "m2")

  lemma K2IsNew(s: System)
    requires Inv(W, s) && s.used == {K}
    ensures K2 !in s.used && K2 !in s.attachedTo && TagFree(W, s, K2)
  {
    forall h | h in s.hosts && s.hosts[h].machineRef.Some? ensures W.tag(s.hosts[h].machineRef.value) != W.tag(K2) {
      assert HostOk(W, s, h, s.hosts[h]);
      assert s.hosts[h].machineRef.value in s.used;
    }
    hide HostOk, ConfigOk, SecretOk;
  }

  lemma CreateIs(s: System)
    requires K2 !in s.used && TagFree(W, s, K2)
    ensures var step := CreateMachine(K2, "c", false, false);
            && Enabled(W, s, step)
            && Apply(W, s, step) == s.(machines := s.machines[K2 := NewMachine("c", false, false)], used := s.used + {K2})
  {
    hide TagFree;
  }

  lemma ProvideIs(s: System)
    requires K2 !in s.dataSecret
    ensures Enabled(W, s, ProvideData(K2, "d")) && Apply(W, s, ProvideData(K2, "d")) == s.(dataSecret := s.dataSecret[K2 := "d"])
  {
  }

  /** Another machine comes that could have the free host. */
  lemma Another(s: System) returns (t: System)
    requires Reached(s) && Sound(W) && Inv(W, s) && s.used == {K} && H in s.hosts && s.hosts[H].machineRef.None?
    ensures Reached(t) && Inv(W, t) && Fit(t, K2, H) && !t.machines[K2].foreign
    ensures t.hosts == s.hosts && t.secrets == s.secrets && t.trace == s.trace
  {
    hide Inv, Reached, Enabled, Apply, TagFree;
    K2IsNew(s);
    CreateIs(s);
    var create := CreateMachine(K2, "c", false, false);
    Extend(s, create);
    StepKeeps(W, s, create);
    t := WithData(Apply(W, s, create));
  }

  /** Its bootstrap data is there, or comes now. */
  lemma WithData(s: System) returns (t: System)
    requires Reached(s) && Sound(W) && Inv(W, s)
    ensures Reached(t) && Inv(W, t) && t == s.(dataSecret := t.dataSecret) && K2 in t.dataSecret
  {
    hide Inv, Reached, Enabled, Apply;
    t := s;
    if K2 !in s.dataSecret {
      ProvideIs(s);
      Extend(s, ProvideData(K2, "d"));
      StepKeeps(W, s, ProvideData(K2, "d"));
      t := Apply(W, s, ProvideData(K2, "d"));
    }
  }

  // ---------------------------------------------------------------- a deleted host

  lemma DeletionIs(s: System)
    requires AtSeven(s) && K !in s.machines
    ensures Enabled(W, s, DeleteHost(H)) && Apply(W, s, DeleteHost(H)) == s.(hosts := s.hosts - {H}) && ForgetsJoin(s, DeleteHost(H), H)
  {
    hide Open, NodeOpen, ComponentsOpen;
  }

  lemma RegisterIs(s: System)
    requires H !in s.hosts
    ensures Enabled(W, s, Register(H, map[], "p")) && Apply(W, s, Register(H, map[], "p")) == s.(hosts := s.hosts[H := FreshHost(map[], "p")])
  {
  }

  lemma SameUse(s: System, t: System)
    requires AtSeven(s) && t.trace == s.trace
    ensures Open(false, Trace(t, H), Joined, Frees)
  {
  }

  /** The ByoHost of a host that has joined is deleted; the host registers again, is taken by another
      machine, and joins for the second time. */
  lemma DeletedJoin() returns (s: System, t: System)
    ensures Reached(s) && Enabled(W, s, DeleteHost(H)) && ForgetsJoin(s, DeleteHost(H), H)
    ensures Reached(t) && !Separated(Trace(t, H), Joined, Frees)
  {
    hide Inv, CleanAt, Reached, Enabled, Apply, ForgetsJoin, Separated, Plays, Open, NodeOpen, ComponentsOpen, RepeatsJoin;
    s := Marked();
    DeletionIs(s);
    Extend(s, DeleteHost(H));
    StepKeeps(W, s, DeleteHost(H));
    var s1 := Apply(W, s, DeleteHost(H));
    var register := Register(H, map[], "p");
    RegisterIs(s1);
    Extend(s1, register);
    StepKeeps(W, s1, register);
    var s2 := Apply(W, s1, register);
    var s3 := Another(s2);
    SameUse(s, s3);
    var s4 := ForgottenRejoins(W, s3, K2, H);
    ReachedOn(s3, [Taking(K2, H)], s4);
    Extend(s4, Rejoining(H));
    t := Apply(W, s4, Rejoining(H));
  }

  // ---------------------------------------------------------------- a cut collection

  const CLEAN := AgentStep(H, false, ALL_GOOD, false)

  lemma CleanIs(s: System)
    requires Inv(W, s) && AtSeven(s) && Cleanup in s.hosts[H].notes
    ensures Enabled(W, s, CLEAN) && Heard(s, CLEAN)
    ensures var t := Apply(W, s, CLEAN);
            && t.used == s.used && t.secrets == s.secrets && H in t.hosts
            && t.hosts[H].uninstallSecret == Some(UninstallOf(K)) && Collects(t.hosts[H])
  {
    WorkResets(s);
    assert Cleanup in RESERVED_NOTES;
    hide Inv, AgentPass, ApplyAgent, Open;
    AgentMoves(s.hosts[H], false, ALL_GOOD);
  }

  const CUT := HostStep(H, true)

  lemma CutIs(s: System)
    requires H in s.hosts && Collects(s.hosts[H])
    ensures Enabled(W, s, CUT) && Dangles(s, CUT, H)
    ensures Apply(W, s, CUT) == s.(secrets := s.secrets - {s.hosts[H].uninstallSecret.value})
  {
  }

  /** The collection of an uninstall secret is cut before the reference goes; the host is taken by
      another machine and is marked when that is deleted: it is stuck. */
  lemma CutCollection() returns (s: System, t: System)
    ensures Reached(s) && HostSecrets.Stored(s, H) && Enabled(W, s, CUT) && Dangles(s, CUT, H)
    ensures Reached(t) && Stuck(t, H)
  {
    hide Inv, CleanAt, Reached, Enabled, Apply, Plays, Open, NodeOpen, ComponentsOpen, Dangles;
    var s0 := Marked();
    CleanIs(s0);
    Extend(s0, CLEAN);
    StepKeeps(W, s0, CLEAN);
    s := Apply(W, s0, CLEAN);
    CutIs(s);
    Extend(s, CUT);
    StepKeeps(W, s, CUT);
    var s1 := Apply(W, s, CUT);
    var s2 := Another(s1);
    t := DanglingIsStuck(W, s2, K2, H);
    ReachedOn(s2, [Taking(K2, H), DeleteMachine(K2), Marking(K2, H)], t);
  }

  // ---------------------------------------------------------------- a lost reason

  const UNTOLD := ATTACH.(lost := true)

  lemma UntoldSeen()
    ensures FetchedOk(W, S3, K, UNTOLD) && PickOk(S3, K, UNTOLD) && Attaches(S3, K, UNTOLD)
    ensures Live(S3, K) && S3.machines[K].installer && K !in S3.configs && Story(S3, K)
  {
    FourthView();
    hide NormalView;
  }

  /** The reservation loses the patch of the ByoMachine, with the reason in it. */
  lemma LostReason() returns (t: System)
    ensures Reached(t) && Stalled(t, K)
  {
    hide Inv, Reached, Enabled, Apply, MachinePass, FetchedOk, PickOk, Stalled, Story;
    Beginning();
    UntoldSeen();
    AttachStallsIff(W, S3, K, UNTOLD);
    MachineStepIs(S3, UNTOLD);
    Extend(S3, MachineStep(K, UNTOLD));
    t := Apply(W, S3, MachineStep(K, UNTOLD));
  }

  const PAUSE := HAND.(paused := true)

  lemma PauseSeen(s: System)
    requires Inv(W, s) && Owns(s, K, H)
    ensures FetchedOk(W, s, K, PAUSE) && PickOk(s, K, PAUSE)
  {
    Holds(W, s, K, H);
    assert Carries(W, s, H, K);
    hide Inv, Stocked;
  }

  lemma FourIsOnTrack()
    ensures OnTrack(W, MachinePass(W, S3, K, ATTACH), K, H)
  {
    Beginning();
    FourthView();
    hide Inv, MachinePass, NormalView, FetchedOk, PickOk;
    AttachedIsOnTrack(W, S3, K, ATTACH, H);
  }

  lemma FourWaits(s: System)
    requires AtFour(s)
    ensures Owns(s, K, H) && s.machines[K].installer && K in s.configs && !s.configs[K].ready
  {
  }

  /** A paused reconcile overwrites the reason before the scripts are there. */
  lemma PausedReason() returns (t: System)
    ensures Reached(t) && Stalled(t, K)
  {
    hide Inv, Reached, Enabled, Apply, MachinePass, FetchedOk, PickOk, Stalled, AtFour, OnTrack;
    Beginning();
    FourthStep();
    var attach, pause := MachineStep(K, ATTACH), MachineStep(K, PAUSE);
    PassApplies(W, S3, attach);
    FourIsOnTrack();
    Extend(S3, attach);
    StepKeeps(W, S3, attach);
    var s := Apply(W, S3, attach);
    FourWaits(s);
    PauseSeen(s);
    PauseStallsIff(W, s, K, PAUSE, H);
    MachineStepIs(s, PAUSE);
    Extend(s, pause);
    t := Apply(W, s, pause);
  }

  // ---------------------------------------------------------------- a pause that nobody ends

  lemma PauseArrives(s: System)
    requires Ordinary(s, K, H) && FetchedOk(W, s, K, PAUSE) && PickOk(s, K, PAUSE)
    ensures var t := MachinePass(W, s, K, PAUSE);
            Ordinary(t, K, H) && t.hosts[H] == WithPaused(s.hosts[H], true) && t.secrets == s.secrets
  {
    hide WriteBack, NormalView;
    PassHosts(W, s, K, PAUSE);
    var v := PassView(W, s, K, PAUSE);
    WriteBackFrame(s, K, PAUSE, v);
    WriteBackMachines(s, K, PAUSE, v);
  }

  lemma PausedHost(host: Host)
    ensures var p := WithPaused(host, true); Paused in p.notes && p == host.(notes := p.notes)
  {
  }

  lemma SixIsOrdinary(s: System)
    requires AtSix(s, false)
    ensures Ordinary(s, K, H) && s.hosts[H].uninstallSecret == Some(UninstallOf(K)) && UninstallOf(K) in s.secrets
  {
  }

  /** The machine is paused, and with it its host; when it is deleted later the host is marked, and the
      pause stays. Its script is there, yet no event reaches its agent. */
  lemma PausedMark() returns (t: System)
    ensures Reached(t) && Parked(t, H) && forall skip :: Runnable(t, t.hosts[H], skip)
  {
    hide Inv, Reached, Enabled, Apply, Plays, MachinePass, FetchedOk, PickOk, AtSix, WithPaused, MarkedForCleanup;
    var s := Prepared(false);
    var pause := MachineStep(K, PAUSE);
    SixIsOrdinary(s);
    PauseSeen(s);
    PauseArrives(s);
    MachineStepIs(s, PAUSE);
    Extend(s, pause);
    StepKeeps(W, s, pause);
    var m := Apply(W, s, pause);
    PausedHost(s.hosts[H]);
    t := Deletion(W, m, K, H);
    MarkedStays(m.hosts[H]);
    ReachedOn(m, [DeleteMachine(K), Marking(K, H)], t);
  }

  // ---------------------------------------------------------------- secrets that are left behind

  lemma LeakLeaves(s: System, step: Step)
    requires Reached(s) && Sound(W) && Inv(W, s) && Enabled(W, s, step) && Heard(s, step)
    requires Kept(s, K) && K in s.used && Leaks(W, s, step, K)
    ensures Reached(Apply(W, s, step)) && LeftBehind(Apply(W, s, step), K)
  {
    hide Inv, Reached, Enabled, Apply, Leaks;
    Extend(s, step);
    StepKeptIff(W, s, step, K);
    LiveMoves(W, s, step, K);
  }

  lemma UnnamedYet(s: System)
    requires Inv(W, s) && Ordinary(s, K, H) && s.hosts[H].uninstallSecret.None?
    ensures !NamedByHost(s, K) && Live(s, K)
  {
    hide Inv, Stocked;
    Holds(W, s, K, H);
  }

  lemma DeleteMachineIs(s: System)
    requires Ordinary(s, K, H)
    ensures Enabled(W, s, DeleteMachine(K))
    ensures Apply(W, s, DeleteMachine(K)) == s.(machines := s.machines[K := s.machines[K].(deleting := true)])
  {
  }

  lemma FiveFacts(s: System)
    requires AtFive(s)
    ensures Ordinary(s, K, H) && s.hosts[H].uninstallSecret.None? && UninstallOf(K) in s.secrets && K in s.used
  {
  }

  /** The machine is deleted before its host has the reference. */
  lemma LeftByMachine() returns (s: System, t: System)
    ensures Reached(s) && Enabled(W, s, DeleteMachine(K)) && Leaks(W, s, DeleteMachine(K), K)
    ensures Reached(t) && LeftBehind(t, K)
  {
    hide Inv, Reached, Enabled, Apply, AtFive, Ordinary, LeftBehind;
    s := HasStored();
    FiveFacts(s);
    UnnamedYet(s);
    DeleteMachineIs(s);
    LeakLeaves(s, DeleteMachine(K));
    t := Apply(W, s, DeleteMachine(K));
  }

  lemma DeleteFreeIs(s: System)
    requires H in s.hosts && Collects(s.hosts[H])
    ensures Enabled(W, s, DeleteHost(H))
  {
  }

  lemma CleanedIs(s: System)
    requires Inv(W, s) && AtSeven(s) && Cleanup in s.hosts[H].notes && K !in s.machines
    ensures var t := ApplyAgent(s, H, false, ALL_GOOD, false);
            !Live(t, K) && NamedByHost(t, K) && t.attachedTo[K] == H && UninstallOf(K) in t.secrets && K in t.used
  {
    assert HostOk(W, s, H, s.hosts[H]);
    hide Inv, AgentPass, ApplyAgent, Open;
    AgentMoves(s.hosts[H], false, ALL_GOOD);
  }

  /** The ByoHost is deleted when it is free again, before its secret is collected. */
  lemma LeftByHost() returns (s: System, t: System)
    ensures Reached(s) && Enabled(W, s, DeleteHost(H)) && Leaks(W, s, DeleteHost(H), K)
    ensures Reached(t) && LeftBehind(t, K)
  {
    hide Inv, CleanAt, Reached, Enabled, Apply, AtSeven, LeftBehind, ApplyAgent, Live, NamedByHost;
    var s0 := Marked();
    CleanIs(s0);
    CleanedIs(s0);
    PassApplies(W, s0, CLEAN);
    Extend(s0, CLEAN);
    StepKeeps(W, s0, CLEAN);
    s := Apply(W, s0, CLEAN);
    DeleteFreeIs(s);
    LeakLeaves(s, DeleteHost(H));
    t := Apply(W, s, DeleteHost(H));
  }

  const GENERATE := ConfigStep(K, false, Stored, false)

  lemma LateGeneration(s: System)
    requires AtFour(s)
    ensures var m := s.(machines := s.machines[K := s.machines[K].(deleting := true)]);
            && Ordinary(s, K, H) && s.hosts[H].uninstallSecret.None? && K in s.used
            && Generates(W, m, K, false) && !Live(m, K) && (NamedByHost(m, K) <==> NamedByHost(s, K))
            && UninstallOf(K) !in m.secrets
  {
  }

  /** The scripts are generated for a machine that is being deleted already. */
  lemma LeftByConfig() returns (s: System, t: System)
    ensures Reached(s) && Enabled(W, s, GENERATE) && Leaks(W, s, GENERATE, K)
    ensures Reached(t) && LeftBehind(t, K)
  {
    hide Inv, Reached, Enabled, Apply, AtFour, Ordinary, LeftBehind, Generates, Live, NamedByHost;
    var s4 := HasReserved();
    LateGeneration(s4);
    UnnamedYet(s4);
    DeleteMachineIs(s4);
    Extend(s4, DeleteMachine(K));
    StepKeeps(W, s4, DeleteMachine(K));
    s := Apply(W, s4, DeleteMachine(K));
    ConfigStepIs(s);
    LeakLeaves(s, GENERATE);
    t := Apply(W, s, GENERATE);
  }
}
