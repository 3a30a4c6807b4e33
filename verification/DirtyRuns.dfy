/** Runs from the empty store, one for each way of spoiling the account of a host, that end with a host
    that is free, or whose ByoHost is gone, and dirty. */
module DirtyRuns {
  import opened Objects
  import opened Agent
  import opened Manager
  import opened Protocol
  import opened Reservation
  import opened Traces
  import opened Cleanliness
  import opened Releases
  import opened Schedules
  import opened Spoilings
  import opened Witnesses

  /** The machine is deleted, the host is marked, and a cleanup in which everything succeeds follows. */
  function Ending(skip: bool): seq<Step> {
    [DeleteMachine(K), Marking(K, H), AgentStep(H, skip, GoodOutcomes(skip), false)]
  }

  /** Some reachable state has a clean account, the step spoils it, and at once, or behind such an
      ending, the host is free, or gone, and dirty. */
  ghost predicate Spoils(step: Step) {
    exists s, rest, t ::
      && Reached(s) && CleanAt(s, H) && Enabled(W, s, step) && Heard(s, step) && Dirties(s, step, H)
      && (rest == [] || rest == Ending(false) || rest == Ending(true))
      && Plays(W, Apply(W, s, step), rest, t) && FreeButDirty(t, H)
  }

  /** The agent dies behind a pass that has joined the node; the agent skips installation; the reconcile
      was cut between the two script references: all three spoil. */
  lemma PassesSpoil(cut: bool, skip: bool, lost: bool)
    requires lost || skip || cut
    ensures Spoils(AgentStep(H, skip, ALL_GOOD, lost))
  {
    hide Inv, AtSix, Apply, Enabled, Plays, Dirties, FreeButDirty, CleanAt, Ordinary;
    var s := Prepared(cut);
    var step := AgentStep(H, skip, ALL_GOOD, lost);
    Working(s, cut, skip, lost);
    AgentStepIs(s, skip, lost);
    StepKeeps(W, s, step);
    WorkingSpoils(s, cut, skip, lost);
    var t := SpoiledIsFreed(W, Apply(W, s, step), K, H, skip);
    assert Plays(W, Apply(W, s, step), Ending(skip), t);
  }

  lemma WorkingSpoils(s: System, cut: bool, skip: bool, lost: bool)
    requires Inv(W, s) && AtSix(s, cut) && (lost || skip || cut)
    ensures Heard(s, AgentStep(H, skip, ALL_GOOD, lost))
    ensures var t := ApplyAgent(s, H, skip, ALL_GOOD, lost);
            Spoiled(t, H, skip) && Runnable(t, t.hosts[H], skip) && Paused !in t.hosts[H].notes
  {
    Working(s, cut, skip, lost);
    hide Inv, ApplyAgent, Open;
  }

  lemma SpoilsAtOnce(s: System, step: Step)
    requires Reached(s) && Inv(W, s) && CleanAt(s, H) && Enabled(W, s, step) && Heard(s, step)
    requires FreesDirty(s, step, H) && !FreeButDirty(s, H) && Dirties(s, step, H)
    ensures Spoils(step)
  {
    hide Inv, Reached, CleanAt, Enabled, Apply, Dirties, FreesDirty, FreeButDirty;
    StepFreesIff(W, s, step, H);
    assert Plays(W, Apply(W, s, step), [], Apply(W, s, step));
  }

  /** A cleanup that skips the uninstall script frees a host with installed components. */
  lemma SkippedUninstallSpoils()
    ensures Spoils(AgentStep(H, true, GoodOutcomes(true), false))
  {
    hide Inv, Reached, CleanAt, Open;
    var s := Marked();
    CleanupStep(W, s, H, true);
    hide Enabled;
    SpoilsAtOnce(s, AgentStep(H, true, GoodOutcomes(true), false));
  }

  /** Once its machine is gone the ByoHost of a host that has joined may be deleted. */
  lemma DeletionSpoils()
    ensures Spoils(DeleteHost(H))
  {
    hide Inv, Reached, CleanAt, Open;
    var s := Marked();
    SpoilsAtOnce(s, DeleteHost(H));
  }
}
