/** The one fault that orphans a reservation, in a run from the empty store, and what becomes of the
    orphan. */
module Strandings {
  import opened Objects
  import opened Agent
  import opened Manager
  import opened Protocol
  import opened Effects
  import opened Reservation
  import opened HostMoves
  import opened Lifetimes

  /** The host is reserved by a machine that is gone, and nobody has marked it for cleanup. */
  predicate Orphaned(s: System, h: Key, k: Key) {
    && h in s.hosts && s.hosts[h].machineRef == Some(k) && Cleanup !in s.hosts[h].notes
    && k in s.used && k !in s.machines
  }

  lemma StepOrphaned(w: World, s: System, step: Step, h: Key, k: Key)
    requires Inv(w, s) && Orphaned(s, h, k) && Enabled(w, s, step) && step != DeleteHost(h)
    ensures Orphaned(Apply(w, s, step), h, k)
  {
    hide Inv, Orphaned, MachinePass, HostPass, ConfigPass, ApplyAgent;
    if IsOutside(step) { OutsideOrphaned(w, s, step, h, k); }
    else if step.MachineStep? { OrphanReconcile(w, s, step.k, step.env, h, k); }
    else { ControllersOrphaned(w, s, step, h, k); }
  }

  lemma OutsideOrphaned(w: World, s: System, step: Step, h: Key, k: Key)
    requires Orphaned(s, h, k) && Enabled(w, s, step) && IsOutside(step) && step != DeleteHost(h)
    ensures Orphaned(Apply(w, s, step), h, k)
  {
    assert Cleanup in RESERVED_NOTES;
    hide Apply;
    OutsideMoves(w, s, step, h);
    OutsideGone(w, s, step, k);
  }

  lemma ControllersOrphaned(w: World, s: System, step: Step, h: Key, k: Key)
    requires Orphaned(s, h, k) && Enabled(w, s, step) && !IsOutside(step) && !step.MachineStep?
    ensures Orphaned(Apply(w, s, step), h, k)
  {
    hide MachinePass, HostPass, ConfigPass, ApplyAgent;
    if step.AgentStep? { AgentOrphaned(s, step.h, step.skip, step.outcomes, step.lost, h, k); }
  }

  lemma AgentOrphaned(s: System, x: Key, skip: bool, o: Outcomes, lost: bool, h: Key, k: Key)
    requires Orphaned(s, h, k) && x in s.hosts
    ensures Orphaned(ApplyAgent(s, x, skip, o, lost), h, k)
  {
    AgentMoves(s.hosts[x], skip, o);
    hide AgentPass, ApplyAgent;
  }

  /** A reconcile leaves the hosts and machines of others alone. */
  lemma OtherTarget(w: World, s: System, x: Key, e: MachineEnv, h: Key, k: Key)
    requires x in s.machines && FetchedOk(w, s, x, e) && PickOk(s, x, e) && e.resolvable && Target(e) != Some(h) && x != k
    ensures var t := MachinePass(w, s, x, e);
            && t.used == s.used && (k in t.machines <==> k in s.machines)
            && (h in s.hosts ==> h in t.hosts && t.hosts[h] == s.hosts[h])
  {
    hide PassView, WriteBack, Attaches;
    PassHosts(w, s, x, e);
    hide FetchedOk, PickOk;
    WriteBackFrame(s, x, e, PassView(w, s, x, e));
    WriteBackMachines(s, x, e, PassView(w, s, x, e));
  }

  lemma OrphanReconcile(w: World, s: System, x: Key, e: MachineEnv, h: Key, k: Key)
    requires Inv(w, s) && Orphaned(s, h, k) && x in s.machines && FetchedOk(w, s, x, e) && PickOk(s, x, e)
    ensures Orphaned(MachinePass(w, s, x, e), h, k)
  {
    Observations(w, s, x, e);
    hide Inv, PassView, WriteBack, Attaches;
    assert Target(e) != Some(h) && x != k;
    hide FetchedOk, PickOk;
    if e.resolvable { OtherTarget(w, s, x, e, h, k); }
  }

  /** An orphan stays one until the ByoHost itself is deleted. */
  lemma {:induction false} OrphanedForGood(w: World, r: Run, i: nat, j: nat, h: Key, k: Key)
    requires Sound(w) && Valid(w, r) && i <= j < |r.states| && Orphaned(r.states[i], h, k)
    requires forall n :: i <= n < j ==> r.steps[n] != DeleteHost(h)
    ensures Orphaned(r.states[j], h, k)
    decreases j
  {
    hide Inv, Apply, Enabled, Orphaned;
    if i < j {
      OrphanedForGood(w, r, i, j - 1, h, k);
      Invariant(w, r, j - 1);
      assert Next(w, r, j - 1);
      StepOrphaned(w, r.states[j - 1], r.steps[j - 1], h, k);
    }
  }

  // ---------------------------------------------------------------- a run that strands a host

  const H := Key("n", "h")
  const K := Key("n", "m")
  const W := World((k: Key) => "t", (k: Key, p: string) => None)
  const LOSES := MachineEnv(true, false, true, None, Some(H), "", "", "", false, "a", Complete, true)

  const S1 := EMPTY.(hosts := map[H := FreshHost(map[], "")])
  const S2 := S1.(machines := map[K := NewMachine("c", false, false)], used := {K})
  const S3 := S2.(dataSecret := map[K := "d"])
  const HELD := Reserved(FreshHost(map[], ""), K, "c", "t", "d", LOSES)
  const S4 := S3.(hosts := map[H := HELD], attachedTo := map[K := H])
  const S5 := S4.(machines := map[])

  lemma Step1()
    ensures Enabled(W, EMPTY, Register(H, map[], "")) && Apply(W, EMPTY, Register(H, map[], "")) == S1
  {
    hide MachinePass, HostPass, ConfigPass, ApplyAgent;
  }

  lemma Step2()
    ensures Enabled(W, S1, CreateMachine(K, "c", false, false)) && Apply(W, S1, CreateMachine(K, "c", false, false)) == S2
  {
    hide MachinePass, HostPass, ConfigPass, ApplyAgent;
    assert {} + {K} == {K};
  }

  lemma Step3()
    ensures Enabled(W, S2, ProvideData(K, "d")) && Apply(W, S2, ProvideData(K, "d")) == S3
  {
    hide MachinePass, HostPass, ConfigPass, ApplyAgent;
  }

  lemma View4()
    ensures FetchedOk(W, S3, K, LOSES) && PickOk(S3, K, LOSES)
    ensures var v := NormalView(W, S3, K, LOSES); v.host == Some(HELD) && v.config.None? && v.node.None?
  {
    assert forall h :: h in S3.hosts ==> !Carries(W, S3, h, K);
    hide BaseVersion;
  }

  lemma Step4()
    ensures Enabled(W, S3, MachineStep(K, LOSES)) && Apply(W, S3, MachineStep(K, LOSES)) == S4
  {
    View4();
    hide HostPass, ConfigPass, ApplyAgent, NormalView, Reserved;
  }

  lemma Step5()
    ensures Enabled(W, S4, DeleteMachine(K)) && Apply(W, S4, DeleteMachine(K)) == S5
  {
    hide MachinePass, HostPass, ConfigPass, ApplyAgent, Reserved;
    assert S4.machines - {K} == map[];
  }

  const STEPS := [Register(H, map[], ""), CreateMachine(K, "c", false, false), ProvideData(K, "d"), MachineStep(K, LOSES), DeleteMachine(K)]
  const STATES := [EMPTY, S1, S2, S3, S4, S5]

  lemma StrandingRun()
    ensures Valid(W, Run(STATES, STEPS))
  {
    hide Enabled, Apply, Reserved;
    Step1();
    Step2();
    Step3();
    Step4();
    Step5();
    var r := Run(STATES, STEPS);
    assert Next(W, r, 0) && Next(W, r, 1) && Next(W, r, 2) && Next(W, r, 3) && Next(W, r, 4);
  }

  lemma Stranded()
    ensures Orphaned(S5, H, K)
  {
    hide BaseVersion;
  }

  /** A reservation is orphaned by a lost patch and the deletion of the machine. */
  lemma LostPatchStrands()
    ensures exists r: Run, i: nat :: Valid(W, r) && i < |r.states| && Orphaned(r.states[i], H, K)
  {
    hide Valid, Orphaned;
    StrandingRun();
    Stranded();
    assert Run(STATES, STEPS).states[5] == S5;
  }
}
