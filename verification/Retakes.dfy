/** A free host is taken again: what is left of its earlier life then does its damage. */
module Retakes {
  import opened Objects
  import opened Agent
  import opened Manager
  import opened Protocol
  import opened Effects
  import opened Reservation
  import opened Traces
  import opened Cleanliness
  import opened Commands
  import opened Convergence
  import opened Releases
  import opened Schedules
  import opened Spoilings

  /** The machine has no host yet, and could have this one. */
  predicate Fit(s: System, k: Key, h: Key) {
    && Live(s, k) && k !in s.attachedTo && k in s.dataSecret
    && h in s.hosts && s.hosts[h].machineRef.None? && h.ns == k.ns
  }

  function Taking(k: Key, h: Key): Step {
    MachineStep(k, QUIET.(pick := Some(h)))
  }

  /** What a reservation leaves of the host, and around it. */
  predicate Took(s: System, t: System, k: Key, h: Key) {
    && k in s.machines && Owns(t, k, h) && t.machines[k].finalizer && t.machines[k].foreign == s.machines[k].foreign
    && t.secrets == s.secrets && t.trace == s.trace && t.used == s.used
    && h in s.hosts
    && var a, b := s.hosts[h], t.hosts[h];
       && b.node == a.node && b.components == a.components && b.deleting == a.deleting && b.bootstrapSecret.Some?
       && (a.uninstallSecret.Some? ==> b.uninstallSecret == a.uninstallSecret)
       && (Paused in b.notes <==> Paused in a.notes) && (Cleanup in b.notes <==> Cleanup in a.notes)
  }

  lemma TakingSeen(w: World, s: System, k: Key, h: Key)
    requires Inv(w, s) && Fit(s, k, h)
    ensures var e := QUIET.(pick := Some(h)); FetchedOk(w, s, k, e) && PickOk(s, k, e) && Attaches(s, k, e)
  {
    forall x | x in s.hosts ensures !Carries(w, s, x, k) {
      LabelLookup(w, s, x, k);
      assert HostOk(w, s, x, s.hosts[x]);
    }
    assert HostOk(w, s, h, s.hosts[h]);
    hide Inv;
  }

  lemma TakingLeaves(w: World, s: System, k: Key, h: Key)
    requires Fit(s, k, h) && Attaches(s, k, QUIET.(pick := Some(h)))
    ensures var e := QUIET.(pick := Some(h)); var v := PassView(w, s, k, e);
            && v == NormalView(w, s, k, e) && v.host.Some?
            && v.m == s.machines[k].(finalizer := true, status := v.m.status, ready := v.m.ready, providerID := v.m.providerID, hostInfo := v.m.hostInfo)
            && var a, b := s.hosts[h], v.host.value;
               && b.node == a.node && b.components == a.components && b.deleting == a.deleting && b.bootstrapSecret.Some?
               && b.machineRef == Some(k) && (a.uninstallSecret.Some? ==> b.uninstallSecret == a.uninstallSecret)
               && (Paused in b.notes <==> Paused in a.notes) && (Cleanup in b.notes <==> Cleanup in a.notes)
  {
    var e := QUIET.(pick := Some(h));
    assert PassView(w, s, k, e) == NormalView(w, s, k, e);
    hide NormalView, PassView, BaseVersion;
    NormalHost(w, s, k, e);
    NormalMachine(w, s, k, e);
  }

  lemma TakingPass(w: World, s: System, k: Key, h: Key)
    requires Fit(s, k, h)
    requires var e := QUIET.(pick := Some(h)); FetchedOk(w, s, k, e) && PickOk(s, k, e) && Attaches(s, k, e)
    ensures Took(s, MachinePass(w, s, k, QUIET.(pick := Some(h))), k, h)
  {
    hide PassView, WriteBack, FetchedOk, PickOk, Attaches;
    var e := QUIET.(pick := Some(h));
    PassHosts(w, s, k, e);
    TakingLeaves(w, s, k, h);
    var v := PassView(w, s, k, e);
    WriteBackFrame(s, k, e, v);
    WriteBackMachines(s, k, e, v);
  }

  lemma TakingIs(w: World, s: System, k: Key, h: Key)
    requires k in s.machines
    requires var e := QUIET.(pick := Some(h)); FetchedOk(w, s, k, e) && PickOk(s, k, e)
    ensures Enabled(w, s, Taking(k, h)) && Apply(w, s, Taking(k, h)) == MachinePass(w, s, k, QUIET.(pick := Some(h)))
  {
    hide MachinePass, FetchedOk, PickOk;
  }

  /** A reservation without any fault. */
  lemma Taken(w: World, s: System, k: Key, h: Key)
    requires Inv(w, s) && Fit(s, k, h)
    ensures Enabled(w, s, Taking(k, h)) && Took(s, Apply(w, s, Taking(k, h)), k, h)
  {
    hide Inv, MachinePass, FetchedOk, PickOk, Enabled, Apply, Took, Attaches;
    TakingSeen(w, s, k, h);
    TakingIs(w, s, k, h);
    TakingPass(w, s, k, h);
  }

  // ---------------------------------------------------------------- a dangling reference

  /** A free host whose uninstall secret is gone gets stuck as soon as it has been taken and its machine
      is deleted again. */
  lemma DanglingIsStuck(w: World, s: System, k: Key, h: Key) returns (t: System)
    requires Sound(w) && Inv(w, s) && Fit(s, k, h) && !s.machines[k].foreign
    requires s.hosts[h].uninstallSecret.Some? && s.hosts[h].uninstallSecret.value !in s.secrets
    ensures Plays(w, s, [Taking(k, h), DeleteMachine(k), Marking(k, h)], t) && Stuck(t, h)
  {
    hide Inv, Enabled, Apply, Plays, MarkedForCleanup;
    Taken(w, s, k, h);
    var m := Apply(w, s, Taking(k, h));
    StepKeeps(w, s, Taking(k, h));
    t := Deletion(w, m, k, h);
    MarkedStays(m.hosts[h]);
    PlaysOne(w, s, Taking(k, h));
    PlaysAppend(w, s, [Taking(k, h)], m, [DeleteMachine(k), Marking(k, h)], t);
    assert [Taking(k, h)] + [DeleteMachine(k), Marking(k, h)] == [Taking(k, h), DeleteMachine(k), Marking(k, h)];
  }

  // ---------------------------------------------------------------- a forgotten join

  /** A bootstrap without installation. */
  function Rejoining(h: Key): Step {
    AgentStep(h, true, ALL_GOOD.(readInstall := false), false)
  }

  lemma RejoiningPass(host: Host)
    requires host.machineRef.Some? && host.bootstrapSecret.Some? && !host.node.IsTrue? && Cleanup !in host.notes && !host.deleting
    ensures Joining(host, true, ALL_GOOD.(readInstall := false))
  {
  }

  /** A free host that has joined a cluster and was never cleaned up joins again as soon as it has been
      taken. */
  lemma ForgottenRejoins(w: World, s: System, k: Key, h: Key) returns (m: System)
    requires Sound(w) && Inv(w, s) && Fit(s, k, h) && Paused !in s.hosts[h].notes && Open(false, Trace(s, h), Joined, Frees)
    ensures Plays(w, s, [Taking(k, h)], m) && Inv(w, m)
    ensures Enabled(w, m, Rejoining(h)) && Heard(m, Rejoining(h)) && RepeatsJoin(m, Rejoining(h), h)
    ensures !Separated(Trace(Apply(w, m, Rejoining(h)), h), Joined, Frees)
  {
    hide Inv, Apply, Plays, Joining, Separated, Open;
    Taken(w, s, k, h);
    FreeIsFresh(w, s, h);
    m := Apply(w, s, Taking(k, h));
    StepKeeps(w, s, Taking(k, h));
    PlaysOne(w, s, Taking(k, h));
    RejoiningPass(m.hosts[h]);
    SameOpen(s, m, h);
    StepSeparatesJoins(w, m, Rejoining(h), h);
  }

  lemma SameOpen(s: System, t: System, h: Key)
    requires t.trace == s.trace
    ensures Open(false, Trace(t, h), Joined, Frees) == Open(false, Trace(s, h), Joined, Frees)
  {
  }

  lemma FreeIsFresh(w: World, s: System, h: Key)
    requires Inv(w, s) && h in s.hosts && s.hosts[h].machineRef.None?
    ensures !s.hosts[h].node.IsTrue? && !s.hosts[h].deleting && Cleanup !in s.hosts[h].notes
  {
    assert HostOk(w, s, h, s.hosts[h]);
    assert Cleanup in RESERVED_NOTES;
  }
}
