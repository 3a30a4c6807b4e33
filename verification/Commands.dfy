/** How often and for whom the commands on a physical host are run. */
module Commands {
  import opened Objects
  import opened Agent
  import opened Manager
  import opened Protocol
  import opened Reservation
  import opened HostMoves
  import opened Traces
  import opened Cleanliness

  lemma NothingRun(h: Key)
    ensures Separated(Trace(EMPTY, h), CleanupResets, Installed) && Separated(Trace(EMPTY, h), Joined, Frees)
  {
  }

  // ---------------------------------------------------------------- one reset per installation

  /** The cleanup resets a node that is on record. */
  predicate Resetting(h: Host, o: Outcomes) {
    Cleanup in h.notes && h.components.IsTrue? && o.reset
  }

  lemma CleanupResetsSpaced(h: Host, skip: bool, o: Outcomes, b: bool)
    ensures Spaced(b, CleanupPass(h, skip, o).events, CleanupResets, Installed) <==> !(b && h.components.IsTrue? && o.reset)
  {
    var ev := CleanupPass(h, skip, o).events;
    if h.components.IsTrue? {
      assert forall i :: 0 < i < |ev| ==> !CleanupResets(ev[i]);
      SpacedIfNone(b || CleanupResets(ev[0]), ev[1..], CleanupResets, Installed);
    } else {
      SpacedIfNone(b, ev, CleanupResets, Installed);
    }
  }

  /** A pass repeats a reset exactly if it resets although the last reset has not been followed by an
      installation. */
  lemma PassResetsSpaced(h: Host, skip: bool, o: Outcomes, b: bool)
    ensures Spaced(b, AgentPass(h, skip, o).events, CleanupResets, Installed) <==> !(b && Resetting(h, o))
  {
    if Cleanup in h.notes {
      CleanupResetsSpaced(h, skip, o, b);
      hide CleanupPass, NormalPass;
    } else {
      SpacedIfNone(b, AgentPass(h, skip, o).events, CleanupResets, Installed);
    }
  }

  /** Before a pass an installation that is on record has not been reset; after it this is so if and
      only if the pass does not reset and then lose its patch. */
  lemma PassResets(h: Host, skip: bool, o: Outcomes, lost: bool, b: bool)
    requires h.components.IsTrue? ==> !b
    ensures var p := AgentPass(h, skip, o);
            ((if lost then h else p.host).components.IsTrue? ==> !Open(b, p.events, CleanupResets, Installed))
            <==> !(lost && Resetting(h, o))
  {
    if Cleanup in h.notes {
      hide CleanupPass, NormalPass, Undone;
      CleanupOpens(h, skip, o, b, CleanupResets, Installed);
      CleanupParts(h, skip, o);
    } else {
      hide CleanupPass, NormalPass;
      NormalResets(h, skip, o, b);
    }
  }

  /** Only a successful installation puts components on record. */
  lemma NormalResets(h: Host, skip: bool, o: Outcomes, b: bool)
    ensures var p := NormalPass(h, skip, o);
            && (Open(b, p.events, CleanupResets, Installed) ==> b)
            && (p.host.components.IsTrue? && !h.components.IsTrue? ==> !Open(b, p.events, CleanupResets, Installed))
  {
    NormalOpens(h, skip, o, b, CleanupResets, Installed);
  }

  predicate ResetsAt(s: System, h: Key) {
    h in s.hosts && s.hosts[h].components.IsTrue? ==> !Open(false, Trace(s, h), CleanupResets, Installed)
  }

  /** The agent dies between a successful cleanup reset and the patch that records it. */
  predicate LosesReset(s: System, step: Step, h: Key) {
    step.AgentStep? && step.h == h && step.lost && h in s.hosts && Resetting(s.hosts[h], step.outcomes)
  }

  lemma AgentResets(s: System, h: Key, skip: bool, o: Outcomes, lost: bool)
    requires h in s.hosts && ResetsAt(s, h)
    ensures ResetsAt(ApplyAgent(s, h, skip, o, lost), h) <==> !(lost && Resetting(s.hosts[h], o))
  {
    hide AgentPass, ApplyAgent, Resetting, Trace;
    AgentTrace(s, h, skip, o, lost, h);
    PassResets(s.hosts[h], skip, o, lost, Open(false, Trace(s, h), CleanupResets, Installed));
    OpenAppend(false, Trace(s, h), AgentPass(s.hosts[h], skip, o).events, CleanupResets, Installed);
  }

  /** A step keeps the record of resets true if and only if it does not lose a reset. */
  lemma StepResetsIff(w: World, s: System, step: Step, h: Key)
    requires Inv(w, s) && Enabled(w, s, step) && ResetsAt(s, h)
    ensures ResetsAt(Apply(w, s, step), h) <==> !LosesReset(s, step, h)
  {
    if step.AgentStep? && step.h == h {
      hide Inv, ApplyAgent, ResetsAt, Resetting;
      AgentResets(s, h, step.skip, step.outcomes, step.lost);
    } else {
      hide Inv, Enabled, Apply, Resetting;
      OthersUndisturbed(w, s, step, h);
    }
  }

  /** A successful cleanup reset that no installation separates from the one before. */
  predicate RepeatsReset(s: System, step: Step, h: Key) {
    && step.AgentStep? && step.h == h && h in s.hosts
    && Open(false, Trace(s, h), CleanupResets, Installed) && Resetting(s.hosts[h], step.outcomes)
  }

  lemma AgentRepeats(s: System, h: Key, skip: bool, o: Outcomes, lost: bool)
    requires h in s.hosts && Separated(Trace(s, h), CleanupResets, Installed)
    ensures Separated(Trace(ApplyAgent(s, h, skip, o, lost), h), CleanupResets, Installed)
            <==> !RepeatsReset(s, AgentStep(h, skip, o, lost), h)
  {
    hide AgentPass, ApplyAgent, Resetting, Trace, Separated;
    var ev := AgentPass(s.hosts[h], skip, o).events;
    AgentTrace(s, h, skip, o, lost, h);
    PassResetsSpaced(s.hosts[h], skip, o, Open(false, Trace(s, h), CleanupResets, Installed));
    if Separated(Trace(s, h) + ev, CleanupResets, Installed) { SeparatedOnlyIf(Trace(s, h), ev, CleanupResets, Installed); }
    else if !RepeatsReset(s, AgentStep(h, skip, o, lost), h) { SeparatedAppend(Trace(s, h), ev, CleanupResets, Installed); }
  }

  lemma StepRepeats(w: World, s: System, step: Step, h: Key)
    requires Inv(w, s) && Enabled(w, s, step) && Separated(Trace(s, h), CleanupResets, Installed)
    ensures Separated(Trace(Apply(w, s, step), h), CleanupResets, Installed) <==> !RepeatsReset(s, step, h)
  {
    if step.AgentStep? && step.h == h {
      hide Inv, ApplyAgent, RepeatsReset, Separated;
      AgentRepeats(s, h, step.skip, step.outcomes, step.lost);
    } else {
      hide Inv, Enabled, Apply, Separated, Resetting;
      OthersUndisturbed(w, s, step, h);
    }
  }

  lemma StepSeparates(w: World, s: System, step: Step, h: Key)
    requires Inv(w, s) && Enabled(w, s, step)
    ensures Separated(Trace(Apply(w, s, step), h), CleanupResets, Installed)
            <==> Separated(Trace(s, h), CleanupResets, Installed) && !RepeatsReset(s, step, h)
  {
    hide Inv, Apply, Enabled, RepeatsReset, Separated, Trace;
    TraceExtends(w, s, step, h);
    var a, b := Trace(s, h), Trace(Apply(w, s, step), h);
    assert b == a + b[|a|..];
    if Separated(b, CleanupResets, Installed) { SeparatedPrefix(a, b[|a|..], CleanupResets, Installed); }
    if Separated(a, CleanupResets, Installed) { StepRepeats(w, s, step, h); }
  }

  /** In every run, under all faults: between two successful cleanup resets of a host there is a
      successful installation if and only if no step repeats a reset. */
  lemma {:induction false} ResetOncePerInstallIff(w: World, r: Run, i: nat, h: Key)
    requires Sound(w) && Valid(w, r) && i < |r.states|
    ensures Separated(Trace(r.states[i], h), CleanupResets, Installed)
            <==> forall j :: 0 <= j < i ==> !RepeatsReset(r.states[j], r.steps[j], h)
  {
    hide Inv, Apply, Enabled, RepeatsReset, Separated, Trace;
    if i == 0 {
      NothingRun(h);
    } else {
      ResetOncePerInstallIff(w, r, i - 1, h);
      Invariant(w, r, i - 1);
      assert Next(w, r, i - 1);
      StepSeparates(w, r.states[i - 1], r.steps[i - 1], h);
    }
  }

  lemma TraceExtends(w: World, s: System, step: Step, h: Key)
    requires Inv(w, s) && Enabled(w, s, step)
    ensures Trace(s, h) <= Trace(Apply(w, s, step), h)
  {
    if step.AgentStep? && step.h == h {
      hide Inv, ApplyAgent, Trace;
      AgentTrace(s, h, step.skip, step.outcomes, step.lost, h);
    } else {
      hide Inv, Enabled, Apply;
      OthersUndisturbed(w, s, step, h);
    }
  }

  lemma {:induction false} RunResets(w: World, r: Run, i: nat, h: Key)
    requires Sound(w) && Valid(w, r) && i < |r.states|
    requires forall j :: 0 <= j < i ==> !LosesReset(r.states[j], r.steps[j], h)
    ensures ResetsAt(r.states[i], h)
  {
    hide Inv, Apply, Enabled, LosesReset;
    if i > 0 {
      RunResets(w, r, i - 1, h);
      Invariant(w, r, i - 1);
      assert Next(w, r, i - 1);
      hide ResetsAt;
      StepResetsIff(w, r.states[i - 1], r.steps[i - 1], h);
    }
  }

  /** However often uninstallation or later stages of cleanup fail and are retried: if the agent never
      dies right behind a cleanup reset, a host is reset once per installation. */
  lemma ResetOncePerInstall(w: World, r: Run, i: nat, h: Key)
    requires Sound(w) && Valid(w, r) && i < |r.states|
    requires forall j :: 0 <= j < i ==> !LosesReset(r.states[j], r.steps[j], h)
    ensures Separated(Trace(r.states[i], h), CleanupResets, Installed)
  {
    hide Apply, Enabled, LosesReset, Separated;
    ResetOncePerInstallIff(w, r, i, h);
    forall j | 0 <= j < i ensures !RepeatsReset(r.states[j], r.steps[j], h) { RunResets(w, r, j, h); }
  }

  lemma ResetOpens(h: Host, skip: bool, o: Outcomes, b: bool)
    requires Resetting(h, o)
    ensures Open(b, AgentPass(h, skip, o).events, CleanupResets, Installed)
  {
    CleanupOpens(h, skip, o, b, CleanupResets, Installed);
    hide CleanupPass, NormalPass;
  }

  /** Every lost reset breaks the rule if the agent just tries again: the same pass is possible once
      more, and resets once more. */
  lemma LostResetRepeats(w: World, s: System, step: Step, h: Key)
    requires Sound(w) && Inv(w, s) && Enabled(w, s, step) && LosesReset(s, step, h)
    ensures var t := Apply(w, s, step);
            && t.hosts == s.hosts && Enabled(w, t, step) && RepeatsReset(t, step, h)
            && !Separated(Trace(Apply(w, t, step), h), CleanupResets, Installed)
  {
    hide Inv, AgentPass, ApplyAgent, Apply, Trace, Separated, Resetting;
    PassApplies(w, s, step);
    AgentTrace(s, h, step.skip, step.outcomes, true, h);
    ResetOpens(s.hosts[h], step.skip, step.outcomes, Open(false, Trace(s, h), CleanupResets, Installed));
    OpenAppend(false, Trace(s, h), AgentPass(s.hosts[h], step.skip, step.outcomes).events, CleanupResets, Installed);
    StepKeeps(w, s, step);
    StepSeparates(w, Apply(w, s, step), step, h);
  }

  // ---------------------------------------------------------------- one join per reservation

  /** The pass runs the bootstrap script and succeeds. */
  predicate Joining(h: Host, skip: bool, o: Outcomes) {
    Cleanup !in h.notes && !h.deleting && Bootstrapping(h, skip, o) && o.bootstrap
  }

  lemma PassJoinsSpaced(h: Host, skip: bool, o: Outcomes, b: bool)
    ensures Spaced(b, AgentPass(h, skip, o).events, Joined, Frees) <==> !(b && Joining(h, skip, o))
  {
    var ev := AgentPass(h, skip, o).events;
    if Joining(h, skip, o) {
      var n := |ev| - 1;
      assert forall i :: 0 <= i < n ==> !Joined(ev[i]) && !Frees(ev[i]);
      assert Joined(ev[n]);
      SpacedAtLast(b, ev, Joined, Frees);
    } else {
      SpacedIfNone(b, ev, Joined, Frees);
    }
  }

  /** A joined node is on record until the host is freed. */
  predicate JoinKnown(b: bool, host: Host) {
    b ==> host.machineRef.Some? && (host.node.IsTrue? || Cleanup in host.notes)
  }

  /** A pass keeps a joined node on record if and only if it does not join and then lose its patch. */
  lemma PassJoins(h: Host, skip: bool, o: Outcomes, lost: bool, b: bool)
    requires JoinKnown(b, h) && !h.deleting && (h.machineRef.Some? ==> h.bootstrapSecret.Some?)
    ensures var p := AgentPass(h, skip, o);
            JoinKnown(Open(b, p.events, Joined, Frees), if lost then h else p.host) <==> !(lost && Joining(h, skip, o))
  {
    if Cleanup in h.notes {
      CleanupOpens(h, skip, o, b, Joined, Frees);
      CleanupParts(h, skip, o);
      hide CleanupPass, NormalPass, Undone;
    } else {
      NormalOpens(h, skip, o, b, Joined, Frees);
    }
  }

  predicate JoinsAt(s: System, h: Key) {
    var b := Open(false, Trace(s, h), Joined, Frees);
    if h in s.hosts then JoinKnown(b, s.hosts[h]) else !b
  }

  /** The agent dies between a successful bootstrap and the patch that records it, or the ByoHost of
      a host that has joined is deleted. */
  predicate ForgetsJoin(s: System, step: Step, h: Key) {
    && h in s.hosts
    && match step
       case AgentStep(x, skip, o, lost) => x == h && lost && Joining(s.hosts[h], skip, o)
       case DeleteHost(x) => x == h && Open(false, Trace(s, h), Joined, Frees)
       case _ => false
  }

  lemma AgentJoins(s: System, h: Key, skip: bool, o: Outcomes, lost: bool)
    requires h in s.hosts && !s.hosts[h].deleting && (s.hosts[h].machineRef.Some? ==> s.hosts[h].bootstrapSecret.Some?)
    requires JoinsAt(s, h)
    ensures JoinsAt(ApplyAgent(s, h, skip, o, lost), h) <==> !(lost && Joining(s.hosts[h], skip, o))
  {
    hide AgentPass, ApplyAgent, Joining, JoinKnown, Trace;
    AgentTrace(s, h, skip, o, lost, h);
    PassJoins(s.hosts[h], skip, o, lost, Open(false, Trace(s, h), Joined, Frees));
    OpenAppend(false, Trace(s, h), AgentPass(s.hosts[h], skip, o).events, Joined, Frees);
  }

  lemma OthersJoin(s: System, t: System, step: Step, h: Key)
    requires Undisturbed(s, t, step, h) && JoinsAt(s, h) && !(step.AgentStep? && step.h == h)
    ensures JoinsAt(t, h) <==> !ForgetsJoin(s, step, h)
  {
    hide Open, Joining;
  }

  lemma StepJoinsIff(w: World, s: System, step: Step, h: Key)
    requires Inv(w, s) && Enabled(w, s, step) && JoinsAt(s, h)
    ensures JoinsAt(Apply(w, s, step), h) <==> !ForgetsJoin(s, step, h)
  {
    if step.AgentStep? && step.h == h {
      assert HostOk(w, s, h, s.hosts[h]);
      hide Inv, ApplyAgent, JoinsAt, Joining;
      AgentJoins(s, h, step.skip, step.outcomes, step.lost);
    } else {
      hide Inv, Enabled, Apply, Undisturbed, JoinsAt, ForgetsJoin;
      OthersUndisturbed(w, s, step, h);
      OthersJoin(s, Apply(w, s, step), step, h);
    }
  }

  /** A successful bootstrap that no completed cleanup separates from the one before. */
  predicate RepeatsJoin(s: System, step: Step, h: Key) {
    && step.AgentStep? && step.h == h && h in s.hosts
    && Open(false, Trace(s, h), Joined, Frees) && Joining(s.hosts[h], step.skip, step.outcomes)
  }

  lemma AgentRejoins(s: System, h: Key, skip: bool, o: Outcomes, lost: bool)
    requires h in s.hosts && Separated(Trace(s, h), Joined, Frees)
    ensures Separated(Trace(ApplyAgent(s, h, skip, o, lost), h), Joined, Frees) <==> !RepeatsJoin(s, AgentStep(h, skip, o, lost), h)
  {
    hide AgentPass, ApplyAgent, Joining, Trace, Separated;
    var ev := AgentPass(s.hosts[h], skip, o).events;
    AgentTrace(s, h, skip, o, lost, h);
    PassJoinsSpaced(s.hosts[h], skip, o, Open(false, Trace(s, h), Joined, Frees));
    if Separated(Trace(s, h) + ev, Joined, Frees) { SeparatedOnlyIf(Trace(s, h), ev, Joined, Frees); }
    else if !RepeatsJoin(s, AgentStep(h, skip, o, lost), h) { SeparatedAppend(Trace(s, h), ev, Joined, Frees); }
  }

  lemma StepRejoins(w: World, s: System, step: Step, h: Key)
    requires Inv(w, s) && Enabled(w, s, step) && Separated(Trace(s, h), Joined, Frees)
    ensures Separated(Trace(Apply(w, s, step), h), Joined, Frees) <==> !RepeatsJoin(s, step, h)
  {
    if step.AgentStep? && step.h == h {
      hide Inv, ApplyAgent, RepeatsJoin, Separated;
      AgentRejoins(s, h, step.skip, step.outcomes, step.lost);
    } else {
      hide Inv, Enabled, Apply, Separated, Joining;
      OthersUndisturbed(w, s, step, h);
    }
  }

  lemma StepSeparatesJoins(w: World, s: System, step: Step, h: Key)
    requires Inv(w, s) && Enabled(w, s, step)
    ensures Separated(Trace(Apply(w, s, step), h), Joined, Frees)
            <==> Separated(Trace(s, h), Joined, Frees) && !RepeatsJoin(s, step, h)
  {
    hide Inv, Apply, Enabled, RepeatsJoin, Separated, Trace;
    TraceExtends(w, s, step, h);
    var a, b := Trace(s, h), Trace(Apply(w, s, step), h);
    assert b == a + b[|a|..];
    if Separated(b, Joined, Frees) { SeparatedPrefix(a, b[|a|..], Joined, Frees); }
    if Separated(a, Joined, Frees) { StepRejoins(w, s, step, h); }
  }

  /** In every run, under all faults: between two successful bootstraps of a host there is a completed
      cleanup if and only if no step repeats a bootstrap. */
  lemma {:induction false} OneJoinPerReservationIff(w: World, r: Run, i: nat, h: Key)
    requires Sound(w) && Valid(w, r) && i < |r.states|
    ensures Separated(Trace(r.states[i], h), Joined, Frees) <==> forall j :: 0 <= j < i ==> !RepeatsJoin(r.states[j], r.steps[j], h)
  {
    hide Inv, Apply, Enabled, RepeatsJoin, Separated, Trace;
    if i == 0 {
      NothingRun(h);
    } else {
      OneJoinPerReservationIff(w, r, i - 1, h);
      Invariant(w, r, i - 1);
      assert Next(w, r, i - 1);
      StepSeparatesJoins(w, r.states[i - 1], r.steps[i - 1], h);
    }
  }

  lemma {:induction false} RunJoins(w: World, r: Run, i: nat, h: Key)
    requires Sound(w) && Valid(w, r) && i < |r.states|
    requires forall j :: 0 <= j < i ==> !ForgetsJoin(r.states[j], r.steps[j], h)
    ensures JoinsAt(r.states[i], h)
  {
    hide Inv, Apply, Enabled, ForgetsJoin;
    if i > 0 {
      RunJoins(w, r, i - 1, h);
      Invariant(w, r, i - 1);
      assert Next(w, r, i - 1);
      hide JoinsAt;
      StepJoinsIff(w, r.states[i - 1], r.steps[i - 1], h);
    }
  }

  /** If the agent never dies right behind a bootstrap, and no host that has joined loses its ByoHost,
      there is a completed cleanup between two successful bootstraps of a host. */
  lemma OneJoinPerReservation(w: World, r: Run, i: nat, h: Key)
    requires Sound(w) && Valid(w, r) && i < |r.states|
    requires forall j :: 0 <= j < i ==> !ForgetsJoin(r.states[j], r.steps[j], h)
    ensures Separated(Trace(r.states[i], h), Joined, Frees)
  {
    hide Apply, Enabled, ForgetsJoin, Separated;
    OneJoinPerReservationIff(w, r, i, h);
    forall j | 0 <= j < i ensures !RepeatsJoin(r.states[j], r.steps[j], h) { RunJoins(w, r, j, h); }
  }

  lemma JoiningOpens(h: Host, skip: bool, o: Outcomes, b: bool)
    requires Joining(h, skip, o)
    ensures Open(b, AgentPass(h, skip, o).events, Joined, Frees)
  {
    NormalOpens(h, skip, o, b, Joined, Frees);
    hide CleanupPass, NormalPass;
  }

  /** Every lost bootstrap breaks the rule if the agent just tries again: the same pass is possible once
      more, and bootstraps once more. */
  lemma LostJoinRepeats(w: World, s: System, step: Step, h: Key)
    requires Sound(w) && Inv(w, s) && Enabled(w, s, step) && step.AgentStep? && ForgetsJoin(s, step, h)
    ensures var t := Apply(w, s, step);
            && t.hosts == s.hosts && Enabled(w, t, step) && RepeatsJoin(t, step, h)
            && !Separated(Trace(Apply(w, t, step), h), Joined, Frees)
  {
    hide Inv, AgentPass, ApplyAgent, Apply, Trace, Separated, Joining;
    PassApplies(w, s, step);
    AgentTrace(s, h, step.skip, step.outcomes, true, h);
    JoiningOpens(s.hosts[h], step.skip, step.outcomes, Open(false, Trace(s, h), Joined, Frees));
    OpenAppend(false, Trace(s, h), AgentPass(s.hosts[h], step.skip, step.outcomes).events, Joined, Frees);
    StepKeeps(w, s, step);
    StepSeparatesJoins(w, Apply(w, s, step), step, h);
  }

  // ---------------------------------------------------------------- the right script

  /** The event is no bootstrap run, or the run used the data secret of the machine that held the
      host in state `s`. */
  predicate Rightful(s: System, h: Key, e: Event) {
    e.BootstrapRun? ==>
      && h in s.hosts && s.hosts[h].machineRef == Some(e.machine)
      && e.machine in s.dataSecret && e.secret == BootstrapData(e.machine.ns, s.dataSecret[e.machine])
  }

  lemma PassRightful(w: World, s: System, h: Key, skip: bool, o: Outcomes, n: nat)
    requires h in s.hosts && HostOk(w, s, h, s.hosts[h]) && n < |AgentPass(s.hosts[h], skip, o).events|
    ensures Rightful(s, h, AgentPass(s.hosts[h], skip, o).events[n])
  {
  }

  ghost predicate RightfulFrom(s: System, h: Key, tr: seq<Event>, i: nat) {
    forall n :: i <= n < |tr| ==> Rightful(s, h, tr[n])
  }

  lemma EventsRightful(w: World, s: System, h: Key, skip: bool, o: Outcomes)
    requires h in s.hosts && HostOk(w, s, h, s.hosts[h])
    ensures RightfulFrom(s, h, Trace(s, h) + AgentPass(s.hosts[h], skip, o).events, |Trace(s, h)|)
  {
    var ev := AgentPass(s.hosts[h], skip, o).events;
    hide AgentPass, Rightful, HostOk;
    forall n | |Trace(s, h)| <= n < |Trace(s, h) + ev| ensures Rightful(s, h, (Trace(s, h) + ev)[n]) {
      PassRightful(w, s, h, skip, o, n - |Trace(s, h)|);
    }
  }

  lemma AgentRightful(w: World, s: System, h: Key, skip: bool, o: Outcomes, lost: bool)
    requires h in s.hosts && HostOk(w, s, h, s.hosts[h])
    ensures var tr := Trace(ApplyAgent(s, h, skip, o, lost), h);
            Trace(s, h) <= tr && RightfulFrom(s, h, tr, |Trace(s, h)|)
  {
    hide AgentPass, RightfulFrom, HostOk, JoinedNodes;
    EventsRightful(w, s, h, skip, o);
  }

  lemma TraceGrows(w: World, s: System, step: Step, h: Key)
    requires Inv(w, s) && Enabled(w, s, step)
    ensures var t := Apply(w, s, step);
            Trace(s, h) <= Trace(t, h) && RightfulFrom(s, h, Trace(t, h), |Trace(s, h)|)
  {
    hide HostOk, RightfulFrom, ApplyAgent;
    if step.AgentStep? && step.h == h {
      assert HostOk(w, s, h, s.hosts[h]);
      AgentRightful(w, s, h, step.skip, step.outcomes, step.lost);
      hide Inv;
    } else {
      OthersUndisturbed(w, s, step, h);
      hide Inv, Apply;
      NoNewEvents(s, h);
    }
  }

  lemma NoNewEvents(s: System, h: Key)
    ensures RightfulFrom(s, h, Trace(s, h), |Trace(s, h)|)
  {
  }

  /** Every bootstrap run in the history of a host used the data secret of the machine that held
      the host when the script was run, whatever else failed or was lost. */
  lemma {:induction false} RightScript(w: World, r: Run, i: nat, h: Key, n: nat)
    requires Sound(w) && Valid(w, r) && i < |r.states| && n < |Trace(r.states[i], h)|
    ensures exists j :: 0 <= j < i && |Trace(r.states[j], h)| <= n < |Trace(r.states[j + 1], h)|
                        && Rightful(r.states[j], h, Trace(r.states[i], h)[n])
  {
    if i > 0 {
      Invariant(w, r, i - 1);
      assert Next(w, r, i - 1);
      hide Inv, Apply, Enabled, Rightful;
      TraceGrows(w, r.states[i - 1], r.steps[i - 1], h);
      if n < |Trace(r.states[i - 1], h)| { RightScript(w, r, i - 1, h, n); }
    }
  }
}
