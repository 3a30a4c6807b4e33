/** Every run with split agent passes does the same to the store as a run with atomic passes: a pass
    that is not a cleanup takes effect when it begins, a cleanup when it commits. */
module Serializability {
  import opened Objects
  import opened Agent
  import opened Manager
  import opened Protocol
  import opened Effects
  import opened Reservation
  import opened HostMoves
  import opened HostSecrets
  import opened Lifetimes
  import opened References
  import opened Overlay
  import opened PendingPasses
  import opened Schedules
  import opened SplitRuns

  // ---------------------------------------------------------------- everybody else's steps

  /** No step but an agent's writes a trace; only registration and deletion add or remove a host. */
  lemma Domains(w: World, s: System, step: Step, h: Key)
    requires Enabled(w, s, step) && !step.AgentStep?
    ensures var t := Apply(w, s, step);
            && t.trace == s.trace
            && (h in t.hosts && h !in s.hosts ==> step.Register? && step.h == h)
            && (h in s.hosts && h !in t.hosts ==> step == DeleteHost(h))
  {
    hide HostPass, ConfigPass, ApplyAgent, PassView, WriteBack;
    if IsOutside(step) { OutsideMoves(w, s, step, h); hide Apply; }
    else if step.MachineStep? && step.env.resolvable {
      PassHosts(w, s, step.k, step.env);
      WriteBackFrame(s, step.k, step.env, PassView(w, s, step.k, step.env));
    }
  }

  predicate RemovesLate(x: Split, step: Step) {
    step.DeleteHost? && step.h in x.pending && Late(x.pending[step.h])
  }

  lemma OtherTold(w: World, x: Split, step: Step)
    requires SplitEnabled(w, x, Other(step)) && !RemovesLate(x, step)
    ensures Told(Apply(w, x.sys, step), x.pending) == Told(x.sys, x.pending)
  {
    forall y | y in x.pending
      ensures Trace(x.sys, y) == Trace(Apply(w, x.sys, step), y)
      ensures !Late(x.pending[y]) || (y in x.sys.hosts <==> y in Apply(w, x.sys, step).hosts)
    {
      Domains(w, x.sys, step, y);
      hide Apply, Enabled;
    }
    hide Apply, Enabled, Told;
    ToldSame(x.sys, Apply(w, x.sys, step), x.pending);
  }

  lemma OtherQuiet(w: World, x: Split, step: Step)
    requires SplitEnabled(w, x, Other(step)) && !RemovesLate(x, step)
    ensures var st := DelayStep(w, x.sys, step, Coming(x.pending));
            Enabled(w, Abs(x), st) && Apply(w, Abs(x), st) == Abs(SplitApply(w, x, Other(step)))
  {
    OtherTold(w, x, step);
    assert Shown(x.pending).Keys <= x.pending.Keys;
    hide Over, Apply, Enabled, Shown, Told, Coming, DelayStep;
    StepDress(w, x.sys, step, LayerOf(x));
  }

  /** A cleanup whose host is deleted under it has run its commands and written nothing. */
  lemma OtherRemoves(w: World, s: System, q: map<Key, Pending>, h: Key, p: Pending)
    requires h !in q && StillGood(s, h, p) && Late(p) && Enabled(w, s, DeleteHost(h))
    ensures var a := Abs(Split(s, q[h := p]));
            && h in a.hosts && ReadsOk(a, a.hosts[h], p.outcomes)
            && var b := ApplyAgent(a, h, p.skip, p.outcomes, true);
               Enabled(w, b, DeleteHost(h)) && Apply(w, b, DeleteHost(h)) == Abs(Split(Apply(w, s, DeleteHost(h)), q[h := p]))
  {
    hide Abs, CleanupPass, NormalPass, Patched, DeleteAllowed, DelayStep;
    assert Cleanup in RESERVED_NOTES;
    var t := Apply(w, s, DeleteHost(h));
    Undressed(s, q, h);
    CleanupPatch(p, s.hosts[h]);
    CleanupJoinsNothing(s.hosts[h], p.skip, p.outcomes);
    OtherQuiet(w, Split(s, q), DeleteHost(h));
    BeginLate(s, q, h, p);
    PutHosts(t, q, h, p);
    PutTrace(t, q, h, p);
    PutNodes(t, q, h, p);
  }

  lemma Redress(s: System, h: Key, l: Layer)
    requires h in s.hosts && l == Layer(map[h := Conditions(s.hosts[h].node, s.hosts[h].components)], map[], {})
    ensures Over(s, l) == s
  {
    assert Dress(s.hosts, l.conditions) == s.hosts;
    assert WithComing(s.nodes, l.coming) == s.nodes;
    hide Dress, WithComing;
  }

  lemma NotDelayed(w: World, s: System, step: Step)
    requires Enabled(w, s, step)
    ensures DelayStep(w, s, step, {}) == step
  {
    hide HandedOver;
  }

  /** Nobody but the agent writes a condition: writing the conditions a host has, before or after
      any other step, is the same. */
  lemma ConditionsKept(w: World, s: System, step: Step, h: Key)
    requires Enabled(w, s, step) && !step.AgentStep? && h in s.hosts && h in Apply(w, s, step).hosts && !(step.Register? && step.h == h)
    ensures var t := Apply(w, s, step); t.hosts[h].node == s.hosts[h].node && t.hosts[h].components == s.hosts[h].components
  {
    var l := Layer(map[h := Conditions(s.hosts[h].node, s.hosts[h].components)], map[], {});
    hide Apply, Enabled, DelayStep, WithComing;
    Redress(s, h, l);
    NotDelayed(w, s, step);
    StepDress(w, s, step, l);
    assert Apply(w, s, step).hosts[h] == Over(Apply(w, s, step), l).hosts[h];
  }

  /** While a host is marked for cleanup, its machine is no longer live, and the manager leaves the
      record of the reservation alone. */
  lemma ReconcileHolds(w: World, s: System, k: Key, e: MachineEnv, h: Key)
    requires Inv(w, s) && k in s.machines && FetchedOk(w, s, k, e) && PickOk(s, k, e)
    requires h in s.hosts && Cleanup in s.hosts[h].notes
    ensures var t := MachinePass(w, s, k, e); h in t.hosts && SameRecord(s.hosts[h], t.hosts[h])
  {
    hide Inv, MachinePass, PassView;
    MarkedIsNotLive(w, s, k, e, h);
    if e.resolvable { ResolvedHolds(w, s, k, e, h); } else { Unresolved(w, s, k, e); }
  }

  lemma ResolvedHolds(w: World, s: System, k: Key, e: MachineEnv, h: Key)
    requires k in s.machines && FetchedOk(w, s, k, e) && PickOk(s, k, e) && e.resolvable
    requires h in s.hosts && Cleanup in s.hosts[h].notes && e.pick != Some(h) && (e.fetched == Some(h) ==> s.machines[k].deleting)
    ensures var t := MachinePass(w, s, k, e); h in t.hosts && SameRecord(s.hosts[h], t.hosts[h])
  {
    hide MachinePass, PassView;
    PassHosts(w, s, k, e);
    if e.fetched == Some(h) { hide FetchedOk, PickOk, SameKeys; LeavesRecord(w, s, k, e, h); } else { hide FetchedOk, PickOk; }
  }

  /** Pausing and marking leave the record of the reservation alone. */
  lemma LeavesRecord(w: World, s: System, k: Key, e: MachineEnv, h: Key)
    requires k in s.machines && s.machines[k].deleting && e.fetched == Some(h) && h in s.hosts && Cleanup in s.hosts[h].notes
    requires e.pick.Some? ==> e.pick.value in s.hosts
    ensures var x := PassView(w, s, k, e).host; x.Some? ==> SameRecord(s.hosts[h], x.value)
  {
    hide NormalView;
  }

  lemma HeldStill(w: World, s: System, step: Step, h: Key)
    requires Inv(w, s) && Enabled(w, s, step) && !step.AgentStep? && h in s.hosts && Cleanup in s.hosts[h].notes
    ensures var t := Apply(w, s, step); h in t.hosts ==> SameRecord(s.hosts[h], t.hosts[h])
  {
    hide Inv, MachinePass, ConfigPass, HostPass, ApplyAgent;
    if IsOutside(step) { OutsideMoves(w, s, step, h); hide Apply; }
    else if step.MachineStep? { ReconcileHolds(w, s, step.k, step.env, h); }
  }

  lemma LateUndressed(x: Split, h: Key)
    requires h in x.pending && Late(x.pending[h]) && h in x.sys.hosts
    ensures h in Abs(x).hosts && Abs(x).hosts[h] == x.sys.hosts[h]
  {
    hide Mine;
  }

  /** The uninstall script of a host under cleanup stays readable. */
  lemma ReadableStill(w: World, s: System, step: Step, h: Key, o: Outcomes)
    requires Sound(w) && Inv(w, s) && Enabled(w, s, step) && h in s.hosts && Cleanup in s.hosts[h].notes && ReadsOk(s, s.hosts[h], o)
    ensures var t := Apply(w, s, step);
            h in t.hosts && t.hosts[h].uninstallSecret == s.hosts[h].uninstallSecret ==>
              (o.readUninstall && s.hosts[h].uninstallSecret.Some? ==>
                 s.hosts[h].uninstallSecret.value in t.secrets && t.secrets[s.hosts[h].uninstallSecret.value].payload.Uninstall?)
  {
    if o.readUninstall && s.hosts[h].uninstallSecret.Some? {
      StepStored(w, s, step, h);
      StepKeeps(w, s, step);
      assert HostOk(w, s, h, s.hosts[h]);
      var id, t := s.hosts[h].uninstallSecret.value, Apply(w, s, step);
      if id in t.secrets { assert SecretOk(id, t.secrets[id]); }
      hide Inv, Apply, Enabled;
    }
  }

  /** One late pass through a step of somebody else, seen over the layer. */
  lemma LateHolds(w: World, a: System, step: Step, h: Key, p: Pending)
    requires Sound(w) && Inv(w, a) && Enabled(w, a, step) && !step.AgentStep? && h in a.hosts
    requires Late(p) && SameRecord(p.base, a.hosts[h]) && ReadsOk(a, p.base, p.outcomes)
    ensures var b := Apply(w, a, step);
            h in b.hosts ==> SameRecord(p.base, b.hosts[h]) && ReadsOk(b, p.base, p.outcomes)
  {
    hide Inv, Apply, Enabled;
    assert Cleanup in RESERVED_NOTES;
    assert Cleanup in a.hosts[h].notes;
    HeldStill(w, a, step, h);
    ReadableStill(w, a, step, h, p.outcomes);
  }

  lemma LateGood(w: World, x: Split, step: Step, h: Key)
    requires Sound(w) && Inv(w, Abs(x)) && SplitEnabled(w, x, Other(step)) && !step.DeleteHost?
    requires h in x.pending && Late(x.pending[h]) && h in x.sys.hosts && StillGood(x.sys, h, x.pending[h])
    ensures var t := Apply(w, x.sys, step);
            h in t.hosts ==> SameRecord(x.pending[h].base, t.hosts[h]) && ReadsOk(t, x.pending[h].base, x.pending[h].outcomes)
  {
    hide Apply, Enabled, Inv, Mine, DelayStep, Abs, SameRecord, Coming;
    var t := Apply(w, x.sys, step);
    var x' := SplitApply(w, x, Other(step));
    assert x' == Split(t, x.pending);
    if h in t.hosts {
      OtherQuiet(w, x, step);
      LateUndressed(x, h);
      LateUndressed(x', h);
      hide SplitApply, SplitEnabled;
      LateHolds(w, Abs(x), DelayStep(w, x.sys, step, Coming(x.pending)), h, x.pending[h]);
    }
  }

  /** A script that is gone for good is gone for good, whatever everybody else does. */
  lemma DoomedStays(w: World, x: Split, step: Step, p: Pending)
    requires Inv(w, Abs(x)) && Enabled(w, x.sys, step) && Doomed(x.sys, p)
    ensures Doomed(Apply(w, x.sys, step), p)
  {
    var k := Needed(p).value.config;
    assert k in x.sys.configs && x.sys.configs[k].deleting ==> k !in x.sys.machines by {
      if k in x.sys.configs { assert ConfigOk(w, Abs(x), k, Abs(x).configs[k]); }
    }
    hide Inv, Abs, Apply, Enabled;
    StepReadyOrGone(w, x.sys, step, k);
    StaysGone(w, x.sys, step, Needed(p).value);
  }

  lemma OtherGood(w: World, x: Split, step: Step, h: Key)
    requires Sound(w) && Inv(w, Abs(x)) && SplitEnabled(w, x, Other(step)) && h in x.pending && StillGood(x.sys, h, x.pending[h])
    ensures StillGood(Apply(w, x.sys, step), h, x.pending[h])
  {
    var t := Apply(w, x.sys, step);
    Domains(w, x.sys, step, h);
    if !x.pending[h].readable { DoomedStays(w, x, step, x.pending[h]); }
    hide Doomed;
    if step.DeleteHost? {
      hide Inv, Mine;
    } else if h in t.hosts {
      hide Apply, Enabled, Inv, Mine, SameRecord;
      ConditionsKept(w, x.sys, step, h);
      if Late(x.pending[h]) { LateGood(w, x, step, h); }
    }
  }

  // ---------------------------------------------------------------- the theorem

  /** The atomic steps that one step of a split run stands for. */
  ghost function Serial(w: World, x: Split, st: SplitStep): seq<Step>
    requires SplitEnabled(w, x, st)
  {
    match st
    case Begin(h, skip, o, lost) => if Early(Begun(x.sys, h, skip, o, lost)) then [AgentStep(h, skip, o, lost)] else []
    case Read(h) => []
    case Act(h) => []
    case Commit(h) =>
      var p := x.pending[h];
      if Late(p) && h in x.sys.hosts then [AgentStep(h, p.skip, p.outcomes, p.lost)] else []
    case Other(step) =>
      if RemovesLate(x, step)
      then [AgentStep(step.h, x.pending[step.h].skip, x.pending[step.h].outcomes, true), step]
      else [DelayStep(w, x.sys, step, Coming(x.pending))]
  }

  lemma Without(pending: map<Key, Pending>, h: Key)
    requires h in pending
    ensures pending == (pending - {h})[h := pending[h]]
  {
  }

  lemma AgentLeads(w: World, a: System, h: Key, skip: bool, o: Outcomes, lost: bool)
    requires h in a.hosts && ReadsOk(a, a.hosts[h], o)
    ensures Leads(w, a, [AgentStep(h, skip, o, lost)], ApplyAgent(a, h, skip, o, lost))
  {
    hide ApplyAgent, Leads, MachinePass, HostPass, ConfigPass;
    LeadsOne(w, a, AgentStep(h, skip, o, lost));
  }

  lemma BeginSerial(w: World, x: Split, h: Key, skip: bool, o: Outcomes, lost: bool)
    requires SplitEnabled(w, x, Begin(h, skip, o, lost))
    ensures Leads(w, Abs(x), Serial(w, x, Begin(h, skip, o, lost)), Abs(SplitApply(w, x, Begin(h, skip, o, lost))))
  {
    var p := Begun(x.sys, h, skip, o, lost);
    hide AgentPass, JoinsAs, Abs;
    assert SplitApply(w, x, Begin(h, skip, o, lost)) == Split(x.sys, x.pending[h := p]) && x == Split(x.sys, x.pending);
    if Early(p) {
      BeginEarly(x.sys, x.pending, h, p);
      Undressed(x.sys, x.pending, h);
      hide SplitApply, ApplyAgent, Leads, Enabled;
      AgentLeads(w, Abs(x), h, skip, o, lost);
    } else {
      BeginLate(x.sys, x.pending, h, p);
    }
  }

  lemma LateJoinsNothing(s: System, h: Key, p: Pending)
    requires StillGood(s, h, p) && Late(p)
    ensures p.joins.None?
  {
    CleanupJoinsNothing(p.base, p.skip, p.outcomes);
    hide CleanupPass;
  }

  lemma ReadSerial(w: World, x: Split, h: Key)
    requires SplitEnabled(w, x, Read(h))
    ensures Leads(w, Abs(x), Serial(w, x, Read(h)), Abs(SplitApply(w, x, Read(h))))
  {
    hide Abs, AgentPass, Enabled, ReadsOk;
    var p := x.pending[h];
    Without(x.pending, h);
    assert x.pending[h := p.(read := true)] == (x.pending - {h})[h := p.(read := true)];
    assert x == Split(x.sys, x.pending);
    ReadKeeps(x.sys, x.pending - {h}, h, p);
  }

  lemma ActSerial(w: World, x: Split, h: Key)
    requires SplitEnabled(w, x, Act(h)) && StillGood(x.sys, h, x.pending[h])
    ensures Leads(w, Abs(x), Serial(w, x, Act(h)), Abs(SplitApply(w, x, Act(h))))
  {
    var p := x.pending[h];
    Without(x.pending, h);
    if Late(p) { LateJoinsNothing(x.sys, h, p); }
    hide Abs, AgentPass, Acted, Enabled, StillGood;
    assert x.pending[h := p.(acted := true)] == (x.pending - {h})[h := p.(acted := true)];
    assert x == Split(x.sys, x.pending);
    ActKeeps(x.sys, x.pending - {h}, h, p);
  }

  lemma CommitSerial(w: World, x: Split, h: Key)
    requires SplitEnabled(w, x, Commit(h)) && StillGood(x.sys, h, x.pending[h])
    ensures Leads(w, Abs(x), Serial(w, x, Commit(h)), Abs(SplitApply(w, x, Commit(h))))
  {
    var p, q := x.pending[h], x.pending - {h};
    Without(x.pending, h);
    hide Abs, AgentPass, Committed;
    assert x == Split(x.sys, q[h := p]);
    if IsTold(x.sys, h, p) {
      CommitQuiet(x.sys, q, h, p);
    } else {
      CommitLate(x.sys, q, h, p);
      hide ApplyAgent, StillGood, Leads, Enabled, ReadsOk;
      AgentLeads(w, Abs(x), h, p.skip, p.outcomes, p.lost);
    }
  }

  lemma RemoveSerial(w: World, x: Split, h: Key)
    requires SplitEnabled(w, x, Other(DeleteHost(h))) && RemovesLate(x, DeleteHost(h)) && StillGood(x.sys, h, x.pending[h])
    ensures Leads(w, Abs(x), Serial(w, x, Other(DeleteHost(h))), Abs(SplitApply(w, x, Other(DeleteHost(h)))))
  {
    hide Abs, ApplyAgent, StillGood, ReadsOk, Enabled, Apply, Leads;
    var p, q := x.pending[h], x.pending - {h};
    Without(x.pending, h);
    assert x == Split(x.sys, q[h := p]);
    assert Serial(w, x, Other(DeleteHost(h))) == [AgentStep(h, p.skip, p.outcomes, true)] + [DeleteHost(h)];
    assert SplitApply(w, x, Other(DeleteHost(h))) == Split(Apply(w, x.sys, DeleteHost(h)), q[h := p]);
    hide Serial, SplitApply;
    OtherRemoves(w, x.sys, q, h, p);
    var b := ApplyAgent(Abs(x), h, p.skip, p.outcomes, true);
    AgentLeads(w, Abs(x), h, p.skip, p.outcomes, true);
    LeadsOne(w, b, DeleteHost(h));
    LeadsAppend(w, Abs(x), [AgentStep(h, p.skip, p.outcomes, true)], b, [DeleteHost(h)], Apply(w, b, DeleteHost(h)));
  }

  lemma OtherSerial(w: World, x: Split, step: Step)
    requires SplitEnabled(w, x, Other(step)) && Good(x)
    ensures Leads(w, Abs(x), Serial(w, x, Other(step)), Abs(SplitApply(w, x, Other(step))))
  {
    hide Enabled, Apply, Abs, DelayStep, Leads, StillGood;
    if RemovesLate(x, step) {
      assert StillGood(x.sys, step.h, x.pending[step.h]);
      RemoveSerial(w, x, step.h);
    } else {
      OtherQuiet(w, x, step);
      LeadsOne(w, Abs(x), DelayStep(w, x.sys, step, Coming(x.pending)));
    }
  }

  ghost predicate AllMadeOnce(s: System) {
    forall h :: h in s.hosts ==> MadeOnce(s, s.hosts[h])
  }

  lemma LeadsMadeOnce(w: World, steps: seq<Step>, t: System)
    requires Sound(w) && Leads(w, EMPTY, steps, t)
    ensures AllMadeOnce(t)
  {
    hide Leads, Apply, Enabled, MadeOnce;
    var none := Run([EMPTY], []);
    LeadsIsRun(w, none, steps, t);
    var r: Run :| Valid(w, r) && r.states[|r.states| - 1] == t;
    forall h | h in t.hosts ensures MadeOnce(t, t.hosts[h]) { RunMadeOnce(w, r, |r.states| - 1, h); }
  }

  /** A script that cannot be read when a pass begins is gone for good. */
  lemma BegunGood(w: World, a: System, h: Key, skip: bool, o: Outcomes, lost: bool)
    requires Inv(w, a) && h in a.hosts && MadeOnce(a, a.hosts[h])
    ensures StillGood(a, h, Begun(a, h, skip, o, lost))
  {
    assert forall id :: id in a.secrets ==> SecretOk(id, a.secrets[id]);
    hide Inv, AgentPass, JoinsAs, ReadyOrGone;
  }

  lemma SameBegun(a: System, s: System, h: Key, skip: bool, o: Outcomes, lost: bool)
    requires a == s.(hosts := a.hosts, trace := a.trace, nodes := a.nodes) && h in a.hosts && h in s.hosts && a.hosts[h] == s.hosts[h]
    ensures Begun(a, h, skip, o, lost) == Begun(s, h, skip, o, lost)
    ensures StillGood(a, h, Begun(a, h, skip, o, lost)) ==> StillGood(s, h, Begun(s, h, skip, o, lost))
  {
    hide AgentPass, JoinsAs, SameRecord;
  }

  lemma BeginGood(w: World, x: Split, h: Key, skip: bool, o: Outcomes, lost: bool)
    requires Inv(w, Abs(x)) && AllMadeOnce(Abs(x)) && h in x.sys.hosts && h !in x.pending
    ensures StillGood(x.sys, h, Begun(x.sys, h, skip, o, lost))
  {
    hide Inv, Abs, MadeOnce, StillGood, Begun;
    assert x == Split(x.sys, x.pending);
    Undressed(x.sys, x.pending, h);
    BegunGood(w, Abs(x), h, skip, o, lost);
    SameBegun(Abs(x), x.sys, h, skip, o, lost);
  }

  lemma SameGood(s: System, t: System, h: Key, p: Pending)
    requires StillGood(s, h, p) && t == s.(hosts := t.hosts, trace := t.trace, nodes := t.nodes)
    requires Get(t.hosts, h) == Get(s.hosts, h)
    ensures StillGood(t, h, p)
  {
    hide AgentPass, JoinsAs, SameRecord;
  }

  lemma ReadGood(s: System, h: Key, p: Pending)
    requires StillGood(s, h, p) && ReadsOk(s, p.base, p.outcomes)
    ensures StillGood(s, h, p.(read := true))
  {
    hide AgentPass, JoinsAs, SameRecord;
    if !p.readable { DoomedNeverReads(s, p); }
  }

  lemma ActGood(s: System, h: Key, p: Pending)
    requires StillGood(s, h, p) && p.read
    ensures StillGood(Acted(s, p), h, p.(acted := true))
  {
    hide AgentPass, JoinsAs, SameRecord;
  }

  /** A step of one agent does not disturb the passes of the others. */
  lemma AgentGood(w: World, x: Split, st: SplitStep, h: Key)
    requires SplitEnabled(w, x, st) && !st.Other? && !(st.Begin? && st.h == h)
    requires h in x.pending ==> StillGood(x.sys, h, x.pending[h])
    ensures var y := SplitApply(w, x, st); h in y.pending ==> StillGood(y.sys, h, y.pending[h])
  {
    hide AgentPass, Patched, Apply, Enabled, StillGood, ReadsOk;
    if h in x.pending {
      var y := SplitApply(w, x, st);
      if st == Read(h) { ReadGood(x.sys, h, x.pending[h]); }
      else if st == Act(h) { ActGood(x.sys, h, x.pending[h]); }
      else if h in y.pending { SameGood(x.sys, y.sys, h, x.pending[h]); }
    }
  }

  lemma StepGood(w: World, x: Split, st: SplitStep)
    requires Sound(w) && Inv(w, Abs(x)) && AllMadeOnce(Abs(x)) && SplitEnabled(w, x, st) && Good(x)
    ensures Good(SplitApply(w, x, st))
  {
    var y := SplitApply(w, x, st);
    forall h | h in y.pending ensures StillGood(y.sys, h, y.pending[h]) {
      assert h in x.pending ==> StillGood(x.sys, h, x.pending[h]);
      hide Inv, Abs, AllMadeOnce, StillGood, Apply, Enabled;
      if st.Other? { OtherGood(w, x, st.step, h); }
      else if st.Begin? && st.h == h { BeginGood(w, x, h, st.skip, st.outcomes, st.lost); }
      else { hide SplitApply; AgentGood(w, x, st, h); }
    }
  }

  lemma StepSerial(w: World, x: Split, st: SplitStep)
    requires SplitEnabled(w, x, st) && Good(x)
    ensures Leads(w, Abs(x), Serial(w, x, st), Abs(SplitApply(w, x, st)))
  {
    if st.Act? || st.Commit? { assert StillGood(x.sys, st.h, x.pending[st.h]); }
    hide Abs, StillGood, Serial, SplitApply, Leads, Good;
    match st
    case Begin(h, skip, o, lost) => BeginSerial(w, x, h, skip, o, lost);
    case Read(h) => ReadSerial(w, x, h);
    case Act(h) => ActSerial(w, x, h);
    case Commit(h) => CommitSerial(w, x, h);
    case Other(step) => OtherSerial(w, x, step);
  }

  /** The atomic run that a split run stands for. Steps of everybody but the agents are the same and
      come in the same order, except that a reconcile which found a node missing may fail to read it. */
  ghost function Schedule(w: World, r: SplitRun, i: nat): seq<Step>
    requires SplitValid(w, r) && i < |r.states|
  {
    if i == 0 then []
    else
      assert SplitNext(w, r, i - 1);
      Schedule(w, r, i - 1) + Serial(w, r.states[i - 1], r.steps[i - 1])
  }

  lemma EmptyAbs()
    ensures Abs(Split(EMPTY, map[])) == EMPTY
  {
    AbsAtRest(Split(EMPTY, map[]));
  }

  lemma EmptyInv(w: World)
    ensures Inv(w, EMPTY)
  {
  }

  lemma {:induction false} ScheduleLeads(w: World, r: SplitRun, i: nat)
    requires Sound(w) && SplitValid(w, r) && i < |r.states|
    ensures Leads(w, EMPTY, Schedule(w, r, i), Abs(r.states[i])) && Good(r.states[i]) && Inv(w, Abs(r.states[i]))
  {
    hide Inv, Abs, AllMadeOnce, SplitEnabled, SplitApply, Serial;
    EmptyInv(w);
    if i == 0 {
      EmptyAbs();
    } else {
      hide Leads, Good;
      ScheduleLeads(w, r, i - 1);
      assert SplitNext(w, r, i - 1);
      var x, st := r.states[i - 1], r.steps[i - 1];
      StepSerial(w, x, st);
      LeadsMadeOnce(w, Schedule(w, r, i - 1), Abs(x));
      StepGood(w, x, st);
      LeadsKeeps(w, Abs(x), Serial(w, x, st), Abs(r.states[i]));
      LeadsAppend(w, EMPTY, Schedule(w, r, i - 1), Abs(x), Serial(w, x, st), Abs(r.states[i]));
    }
  }

  /** Serializability: the scheduled atomic steps are enabled one after the other, and whenever no
      pass is under way they lead to exactly the store that the split run has reached. */
  lemma Serializable(w: World, r: SplitRun, i: nat)
    requires Sound(w) && SplitValid(w, r) && i < |r.states| && r.states[i].pending == map[]
    ensures Leads(w, EMPTY, Schedule(w, r, i), r.states[i].sys)
  {
    hide Leads, SplitEnabled, SplitApply, Good;
    ScheduleLeads(w, r, i);
    AbsAtRest(r.states[i]);
    hide Abs, Inv;
  }

  // ---------------------------------------------------------------- the schedule is a run in the same order

  /** The steps of everybody but the agents. */
  function Rest(steps: seq<Step>): seq<Step> {
    if steps == [] then []
    else (if steps[0].AgentStep? then [] else [steps[0]]) + Rest(steps[1..])
  }

  function Others(steps: seq<SplitStep>): seq<Step> {
    if steps == [] then []
    else Others(steps[..|steps| - 1]) + (if steps[|steps| - 1].Other? then [steps[|steps| - 1].step] else [])
  }

  /** The same step, or the same reconcile stopped where it reads the node. */
  predicate SameStep(a: Step, b: Step) {
    a == b || (b.MachineStep? && a == MachineStep(b.k, b.env.(stop := AtNode)))
  }

  predicate SameSteps(a: seq<Step>, b: seq<Step>) {
    |a| == |b| && forall i :: 0 <= i < |a| ==> SameStep(a[i], b[i])
  }

  lemma SameAppend(a: seq<Step>, b: seq<Step>, c: seq<Step>, d: seq<Step>)
    requires SameSteps(a, b) && SameSteps(c, d)
    ensures SameSteps(a + c, b + d)
  {
    hide SameStep;
  }

  lemma {:induction false} RestAppend(a: seq<Step>, b: seq<Step>)
    ensures Rest(a + b) == Rest(a) + Rest(b)
  {
    if a == [] {
      assert a + b == b;
      assert Rest(a) == [];
    } else {
      var first := if a[0].AgentStep? then [] else [a[0]];
      RestAppend(a[1..], b);
      assert (a + b)[0] == a[0] && (a + b)[1..] == a[1..] + b;
      assert first + (Rest(a[1..]) + Rest(b)) == (first + Rest(a[1..])) + Rest(b);
    }
  }

  lemma RestOne(a: Step)
    ensures Rest([a]) == if a.AgentStep? then [] else [a]
  {
    assert [a][1..] == [];
    assert Rest([]) == [];
  }

  lemma SerialRest(w: World, x: Split, st: SplitStep)
    requires SplitEnabled(w, x, st)
    ensures SameSteps(Rest(Serial(w, x, st)), if st.Other? then [st.step] else [])
  {
    hide Enabled, DelayStep, Rest, Begun;
    assert Rest([]) == [] by { RestNil(); }
    var steps := Serial(w, x, st);
    if |steps| == 1 { assert steps == [steps[0]]; RestOne(steps[0]); }
    else if |steps| == 2 {
      RestOne(steps[0]);
      RestOne(steps[1]);
      RestAppend([steps[0]], [steps[1]]);
      assert steps == [steps[0]] + [steps[1]];
    }
  }

  lemma RestNil()
    ensures Rest([]) == []
  {
  }

  lemma OthersLast(steps: seq<SplitStep>, st: SplitStep)
    ensures Others(steps + [st]) == Others(steps) + (if st.Other? then [st.step] else [])
  {
    assert (steps + [st])[..|steps|] == steps;
  }

  lemma OrderAppend(done: seq<Step>, more: seq<Step>, steps: seq<SplitStep>, st: SplitStep)
    requires SameSteps(Rest(done), Others(steps)) && SameSteps(Rest(more), if st.Other? then [st.step] else [])
    ensures SameSteps(Rest(done + more), Others(steps + [st]))
  {
    hide Rest, Others, SameSteps;
    RestAppend(done, more);
    OthersLast(steps, st);
    SameAppend(Rest(done), Others(steps), Rest(more), if st.Other? then [st.step] else []);
  }

  lemma EmptyOrder()
    ensures SameSteps(Rest([]), Others([]))
  {
  }

  lemma {:induction false} ScheduleOrder(w: World, r: SplitRun, i: nat)
    requires SplitValid(w, r) && i < |r.states|
    ensures SameSteps(Rest(Schedule(w, r, i)), Others(r.steps[..i]))
  {
    hide SplitEnabled, SplitApply, Serial, Rest, Others, SameSteps;
    if i == 0 {
      EmptyOrder();
      assert r.steps[..i] == [];
    } else {
      assert SplitNext(w, r, i - 1);
      ScheduleOrder(w, r, i - 1);
      SerialRest(w, r.states[i - 1], r.steps[i - 1]);
      OrderAppend(Schedule(w, r, i - 1), Serial(w, r.states[i - 1], r.steps[i - 1]), r.steps[..i - 1], r.steps[i - 1]);
      assert r.steps[..i - 1] + [r.steps[i - 1]] == r.steps[..i];
    }
  }

  /** Whatever holds at the end of every run with atomic passes holds of a split run at rest. */
  lemma AtomicRunExists(w: World, r: SplitRun, i: nat)
    requires Sound(w) && SplitValid(w, r) && i < |r.states| && r.states[i].pending == map[]
    ensures exists q: Run ::
              Valid(w, q) && q.states[|q.states| - 1] == r.states[i].sys && SameSteps(Rest(q.steps), Others(r.steps[..i]))
  {
    hide Leads, SplitEnabled, SplitApply, Enabled, Apply;
    Serializable(w, r, i);
    ScheduleOrder(w, r, i);
    var none := Run([EMPTY], []);
    assert none.steps + Schedule(w, r, i) == Schedule(w, r, i);
    LeadsIsRun(w, none, Schedule(w, r, i), r.states[i].sys);
  }
}
