/** What each kind of step may do to one ByoHost. */
module HostMoves {
  import opened Objects
  import opened Agent
  import opened Manager
  import opened Protocol
  import opened Effects
  import opened Reservation

  /** How the MachineRef and the cleanup mark of a host move in a ByoMachine reconcile. */
  predicate Moved(s: System, t: System, k: Key, e: MachineEnv, h: Key)
    requires k in s.machines
  {
    && (h in t.hosts <==> h in s.hosts)
    && (h in s.hosts ==>
          Moves(s.hosts[h], t.hosts[h],
                if Attaches(s, k, e) && e.pick == Some(h) then Some(k) else s.hosts[h].machineRef,
                Marks(s, k, e) && e.fetched == Some(h)))
  }

  lemma ResolvableMoves(w: World, s: System, k: Key, e: MachineEnv, h: Key)
    requires k in s.machines && FetchedOk(w, s, k, e) && PickOk(s, k, e) && e.resolvable
    requires e.pick.Some? ==> s.hosts[e.pick.value].machineRef.None?
    ensures Moved(s, MachinePass(w, s, k, e), k, e, h)
  {
    hide PassView, MachinePass, Moves;
    PassHosts(w, s, k, e);
    TargetEvolves(w, s, k, e);
    if h in s.hosts { WritesEvolve(s.hosts[h], false, false); }
  }

  /** Exactly how a ByoMachine reconcile moves the MachineRef and the cleanup mark of any host. */
  lemma ReconcileMoves(w: World, s: System, k: Key, e: MachineEnv, h: Key)
    requires Inv(w, s) && k in s.machines && FetchedOk(w, s, k, e) && PickOk(s, k, e)
    ensures Moved(s, MachinePass(w, s, k, e), k, e, h)
  {
    Observations(w, s, k, e);
    hide Inv;
    if e.resolvable { ResolvableMoves(w, s, k, e, h); }
    else if h in s.hosts { WritesEvolve(s.hosts[h], false, false); }
  }

  /** A marked host is not picked, and its machine is not live. */
  lemma MarkedIsNotLive(w: World, s: System, k: Key, e: MachineEnv, h: Key)
    requires Inv(w, s) && k in s.machines && FetchedOk(w, s, k, e) && PickOk(s, k, e)
    requires h in s.hosts && Cleanup in s.hosts[h].notes
    ensures e.pick != Some(h) && (e.fetched == Some(h) ==> s.machines[k].deleting)
  {
    assert HostOk(w, s, h, s.hosts[h]);
    Observations(w, s, k, e);
    assert Live(s, k) && k in s.attachedTo ==> Held(s, k);
    hide Inv;
  }

  /** Steps that are no controller's reconcile. */
  predicate IsOutside(step: Step) {
    !step.MachineStep? && !step.HostStep? && !step.ConfigStep? && !step.AgentStep?
  }

  predicate SameReservation(a: Host, b: Host) {
    && b == a.(labels := b.labels, notes := b.notes, details := b.details)
    && Agree(RESERVED_LABELS, a.labels, b.labels) && Agree(RESERVED_NOTES, a.notes, b.notes)
  }

  predicate OutsideMoved(s: System, t: System, step: Step, h: Key) {
    && t.attachedTo == s.attachedTo && t.trace == s.trace
    && (h in s.hosts && h in t.hosts ==> SameReservation(s.hosts[h], t.hosts[h]))
    && (h in t.hosts && h !in s.hosts ==> step.Register? && step.h == h && t.hosts[h] == FreshHost(step.labels, step.details))
    && (h in s.hosts && h !in t.hosts ==> step == DeleteHost(h)) && (step == DeleteHost(h) ==> h !in t.hosts)
  }

  lemma OutsideMoves(w: World, s: System, step: Step, h: Key)
    requires Enabled(w, s, step) && IsOutside(step)
    ensures OutsideMoved(s, Apply(w, s, step), step, h)
  {
    assert h in s.hosts ==> SameReservation(s.hosts[h], s.hosts[h]);
    match step
    case Register(_, _, _) =>
    case EditHost(_, _, _) =>
    case DeleteHost(_) =>
    case _ => hide SameReservation, PutConfig, PutMachine, MachinePass, HostPass, ConfigPass, ApplyAgent;
  }

  /** The ByoHost controller only clears the uninstall reference, and only of a free host. */
  lemma HostPassMoves(s: System, x: Key, cut: bool, h: Key)
    requires x in s.hosts
    ensures var t := HostPass(s, x, cut);
            && t.attachedTo == s.attachedTo && t.trace == s.trace && t.machines == s.machines
            && (h in t.hosts <==> h in s.hosts)
            && (h in s.hosts && t.hosts[h] != s.hosts[h] ==>
                  t.hosts[h] == s.hosts[h].(uninstallSecret := None) && s.hosts[h].machineRef.None?)
  {
    hide HostPass;
  }

  /** The agent only writes conditions, or releases a host that is marked for cleanup. */
  lemma AgentMoves(h: Host, skip: bool, o: Outcomes)
    ensures var q := AgentPass(h, skip, o).host;
            if Cleanup in h.notes && ReachesEnd(h, skip, o)
            then q == Released(h).(node := q.node, components := q.components)
            else q == h.(node := q.node, components := q.components)
  {
    NormalShape(h, skip, o);
    CleanupShape(h, skip, o);
    hide NormalPass, CleanupPass;
  }

  lemma AgentTrace(s: System, x: Key, skip: bool, o: Outcomes, lost: bool, h: Key)
    requires x in s.hosts
    ensures Trace(ApplyAgent(s, x, skip, o, lost), h) == if h == x then Trace(s, h) + AgentPass(s.hosts[x], skip, o).events else Trace(s, h)
  {
    hide AgentPass, JoinedNodes;
  }
}
