/** Each way of spoiling the account of a host does lead to a host that is free and dirty: from any
    state in which it has happened, and in runs from the empty store. */
module Spoilings {
  import opened Objects
  import opened Agent
  import opened Manager
  import opened Protocol
  import opened Effects
  import opened Reservation
  import opened Traces
  import opened Cleanliness
  import opened Convergence
  import opened Releases
  import opened Schedules

  // ---------------------------------------------------------------- from any spoiled state

  /** A cleanup in this mode will not undo all that has been done on the host. */
  predicate Spoiled(s: System, h: Key, skip: bool) {
    && h in s.hosts
    && ((NodeOpen(s, h) && !s.hosts[h].components.IsTrue?) || (ComponentsOpen(s, h) && !RunsUninstall(s.hosts[h], skip)))
  }

  /** The machine holds the host, and its deletion will wait for the mark. */
  predicate Ordinary(s: System, k: Key, h: Key) {
    Owns(s, k, h) && s.machines[k].finalizer && !s.machines[k].foreign
  }

  function Marking(k: Key, h: Key): Step {
    MachineStep(k, QUIET.(fetched := Some(h)))
  }

  lemma DeletionBegins(w: World, s: System, k: Key, h: Key)
    requires Inv(w, s) && Ordinary(s, k, h)
    ensures Enabled(w, s, DeleteMachine(k))
    ensures var t := Apply(w, s, DeleteMachine(k));
            && t == s.(machines := t.machines) && k in t.machines && t.machines[k] == s.machines[k].(deleting := true)
  {
    hide Inv;
  }

  lemma MarkArrives(w: World, s: System, k: Key, h: Key)
    requires Inv(w, s) && k in s.machines && s.machines[k].deleting && h in s.hosts && Carries(w, s, h, k)
    ensures Enabled(w, s, Marking(k, h))
    ensures var t := Apply(w, s, Marking(k, h));
            && h in t.hosts && t.hosts[h] == MarkedForCleanup(s.hosts[h], false)
            && t.secrets == s.secrets && t.trace == s.trace && t.used == s.used && (!s.machines[k].foreign ==> k !in t.machines)
  {
    var e := QUIET.(fetched := Some(h));
    hide Inv;
    PassHosts(w, s, k, e);
    var v := PassView(w, s, k, e);
    assert v.host == Some(MarkedForCleanup(s.hosts[h], false)) && v.m == s.machines[k].(finalizer := false);
    hide PassView, WriteBack, MarkedForCleanup;
    WriteBackFrame(s, k, e, v);
    WriteBackMachines(s, k, e, v);
  }

  /** The deletion of a machine in two steps: its host is marked, and it is gone. */
  lemma Deletion(w: World, s: System, k: Key, h: Key) returns (t: System)
    requires Sound(w) && Inv(w, s) && Ordinary(s, k, h)
    ensures Plays(w, s, [DeleteMachine(k), Marking(k, h)], t) && Inv(w, t)
    ensures k !in t.machines && h in t.hosts && t.hosts[h] == MarkedForCleanup(s.hosts[h], false)
    ensures t.secrets == s.secrets && t.trace == s.trace && t.used == s.used
  {
    hide Inv, Enabled, Apply, Plays, MarkedForCleanup, Stocked;
    Holds(w, s, k, h);
    DeletionBegins(w, s, k, h);
    var m := Apply(w, s, DeleteMachine(k));
    StepKeeps(w, s, DeleteMachine(k));
    MarkArrives(w, m, k, h);
    t := Apply(w, m, Marking(k, h));
    StepKeeps(w, m, Marking(k, h));
    PlaysOne(w, s, DeleteMachine(k));
    PlaysThen(w, s, [DeleteMachine(k)], m, Marking(k, h));
    assert [DeleteMachine(k)] + [Marking(k, h)] == [DeleteMachine(k), Marking(k, h)];
  }

  lemma SameTrace(s: System, t: System, h: Key)
    requires t.trace == s.trace
    ensures NodeOpen(t, h) == NodeOpen(s, h) && ComponentsOpen(t, h) == ComponentsOpen(s, h)
  {
  }

  /** If the machine of a spoiled host is deleted while the host is not paused, a cleanup in which
      everything succeeds frees a dirty host. */
  lemma SpoiledIsFreed(w: World, s: System, k: Key, h: Key, skip: bool) returns (t: System)
    requires Sound(w) && Inv(w, s) && Ordinary(s, k, h) && Spoiled(s, h, skip) && Runnable(s, s.hosts[h], skip)
    requires Paused !in s.hosts[h].notes
    ensures Plays(w, s, [DeleteMachine(k), Marking(k, h), AgentStep(h, skip, GoodOutcomes(skip), false)], t)
    ensures FreeButDirty(t, h)
  {
    hide Inv, Enabled, Apply, Plays, FreesDirty, FreeButDirty, MarkedForCleanup, Open, ReachesEnd;
    var m := Deletion(w, s, k, h);
    SameTrace(s, m, h);
    MarkedStays(s.hosts[h]);
    CleanupStep(w, m, h, skip);
    CleanupSpoils(m, h, skip);
    var step := AgentStep(h, skip, GoodOutcomes(skip), false);
    StepFreesIff(w, m, step, h);
    t := Apply(w, m, step);
    ThirdStep(w, s, DeleteMachine(k), Marking(k, h), m, step);
  }

  lemma CleanupSpoils(s: System, h: Key, skip: bool)
    requires Spoiled(s, h, skip) && Cleanup in s.hosts[h].notes && s.hosts[h].machineRef.Some?
    requires ReachesEnd(s.hosts[h], skip, GoodOutcomes(skip))
    ensures FreesDirty(s, AgentStep(h, skip, GoodOutcomes(skip), false), h) && !FreeButDirty(s, h)
  {
    hide Open;
  }

  lemma ThirdStep(w: World, s: System, a: Step, b: Step, m: System, c: Step)
    requires Plays(w, s, [a, b], m) && Enabled(w, m, c) && Heard(m, c)
    ensures Plays(w, s, [a, b, c], Apply(w, m, c))
  {
    hide Enabled, Apply, Plays, Heard;
    PlaysThen(w, s, [a, b], m, c);
    assert [a, b] + [c] == [a, b, c];
  }

  lemma MarkedStays(host: Host)
    ensures var m := MarkedForCleanup(host, false);
            && Cleanup in m.notes && m == host.(notes := m.notes, labels := m.labels)
            && (Paused in m.notes <==> Paused in host.notes)
  {
  }

  lemma CleanupStep(w: World, s: System, h: Key, skip: bool)
    requires Inv(w, s) && h in s.hosts && Cleanup in s.hosts[h].notes && Runnable(s, s.hosts[h], skip)
    ensures Enabled(w, s, AgentStep(h, skip, GoodOutcomes(skip), false)) && ReachesEnd(s.hosts[h], skip, GoodOutcomes(skip))
  {
    var host := s.hosts[h];
    assert HostOk(w, s, h, host);
    if host.uninstallSecret.Some? && host.uninstallSecret.value in s.secrets {
      assert SecretOk(host.uninstallSecret.value, s.secrets[host.uninstallSecret.value]);
    }
    hide Inv;
  }

  /** Behind the deletion of its machine the ByoHost itself may be deleted, dirty as it is. */
  lemma DirtyIsDeleted(w: World, s: System, k: Key, h: Key) returns (t: System)
    requires Sound(w) && Inv(w, s) && Ordinary(s, k, h) && (NodeOpen(s, h) || ComponentsOpen(s, h))
    ensures Plays(w, s, [DeleteMachine(k), Marking(k, h), DeleteHost(h)], t)
    ensures FreeButDirty(t, h)
  {
    var m := Deletion(w, s, k, h);
    SameTrace(s, m, h);
    MarkedStays(s.hosts[h]);
    assert HostOk(w, s, h, s.hosts[h]);
    var step := DeleteHost(h);
    assert Enabled(w, m, step);
    assert FreesDirty(m, step, h) && !FreeButDirty(m, h) by { hide Open; }
    hide Inv, Enabled, Apply, Plays, FreesDirty, FreeButDirty, MarkedForCleanup;
    StepFreesIff(w, m, step, h);
    t := Apply(w, m, step);
    ThirdStep(w, s, DeleteMachine(k), Marking(k, h), m, step);
  }
}
