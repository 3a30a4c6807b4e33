/** A host that has been through a reservation and a cleanup is as good as a new one. Every step acts
    on a host as a sequence of a few operations; these never touch foreign labels and annotations, and
    a free host cannot be told from a newly registered one by the commands that follow, if and only
    if the reference to its old uninstall secret has been cleared. */
module Reuse {
  import opened Objects
  import opened Agent
  import opened Manager
  import opened Protocol
  import opened Effects
  import opened Reservation
  import opened HostMoves

  datatype Op =
    | Pause(on: bool)
    | Take(k: Key, cluster: string, tag: string, data: string, e: MachineEnv)
    | Hand(install: SecretId)
    | HandBack(uninstall: SecretId)
    | Mark(upgrading: bool)
    | Collect
    | Work(skip: bool, outcomes: Outcomes, lost: bool)
    | Edit(labels: map<Label, string>, notes: map<Note, string>)
    | Refresh(details: string)

  /** An edit of a map that leaves the protocol's own keys alone. */
  function Edited<K>(own: map<K, string>, edit: map<K, string>, keys: set<K>): map<K, string> {
    (edit - keys) + (map k | k in own && k in keys :: own[k])
  }

  function Do(h: Host, op: Op): Pass {
    match op
    case Pause(on) => Pass(WithPaused(h, on), [])
    case Take(k, cluster, tag, data, e) => Pass(Reserved(h, k, cluster, tag, data, e), [])
    case Hand(id) => Pass(if h.installSecret.None? then h.(installSecret := Some(id)) else h, [])
    case HandBack(id) => Pass(if h.uninstallSecret.None? then h.(uninstallSecret := Some(id)) else h, [])
    case Mark(upgrading) => Pass(MarkedForCleanup(h, upgrading), [])
    case Collect => Pass(if Collects(h) then h.(uninstallSecret := None) else h, [])
    case Work(skip, o, lost) => var p := AgentPass(h, skip, o); Pass(if lost then h else p.host, p.events)
    case Edit(labels, notes) =>
      Pass(h.(labels := Edited(h.labels, labels, RESERVED_LABELS), notes := Edited(h.notes, notes, RESERVED_NOTES)), [])
    case Refresh(details) => Pass(h.(details := details), [])
  }

  function DoAll(h: Host, ops: seq<Op>): Pass
    decreases |ops|
  {
    if ops == [] then Pass(h, [])
    else
      var first := Do(h, ops[0]);
      var rest := DoAll(first.host, ops[1..]);
      Pass(rest.host, first.events + rest.events)
  }

  // ---------------------------------------------------------------- same commands

  lemma DoAlike(a: Host, b: Host, op: Op)
    requires Alike(a, b)
    ensures Do(a, op).events == Do(b, op).events && Alike(Do(a, op).host, Do(b, op).host)
  {
    if op.Work? {
      NormalAlike(a, b, op.skip, op.outcomes);
      CleanupAlike(a, b, op.skip, op.outcomes);
    }
    hide NormalPass, CleanupPass, BaseVersion;
  }

  lemma {:induction false} DoAllAlike(a: Host, b: Host, ops: seq<Op>)
    requires Alike(a, b)
    ensures DoAll(a, ops).events == DoAll(b, ops).events && Alike(DoAll(a, ops).host, DoAll(b, ops).host)
    decreases |ops|
  {
    hide Do, Alike;
    if ops != [] {
      DoAlike(a, b, ops[0]);
      DoAllAlike(Do(a, ops[0]).host, Do(b, ops[0]).host, ops[1..]);
    }
  }

  const TAKE := Take(Key("", ""), "", "", "", MachineEnv(true, false, true, None, None, "", "", "", false, "", Complete, false))

  /** A whole reservation: the host is reserved, marked for cleanup and cleaned up. */
  const CYCLE := [TAKE, Mark(false), Work(false, ALL_GOOD, false)]

  lemma CycleIs(h: Host)
    ensures var h1 := Do(Do(h, TAKE).host, Mark(false)).host;
            DoAll(h, CYCLE).events == CleanupPass(h1, false, ALL_GOOD).events && h1.uninstallSecret == h.uninstallSecret
  {
    var h1 := Do(Do(h, TAKE).host, Mark(false)).host;
    DoOne(h1, Work(false, ALL_GOOD, false));
    DoAllAppend(Do(h, TAKE).host, [Mark(false)], [Work(false, ALL_GOOD, false)]);
    DoOne(Do(h, TAKE).host, Mark(false));
    DoAllAppend(h, [TAKE], [Mark(false)] + [Work(false, ALL_GOOD, false)]);
    DoOne(h, TAKE);
    assert [TAKE] + ([Mark(false)] + [Work(false, ALL_GOOD, false)]) == CYCLE;
    hide DoAll, BaseVersion, CleanupPass, NormalPass;
  }

  /** One reservation is enough to tell a host with an old uninstall reference from a new one. */
  lemma CycleTells(h: Host)
    ensures h.uninstallSecret.Some? ==> UninstallRun(h.uninstallSecret.value, true) in DoAll(h, CYCLE).events
    ensures h.uninstallSecret.None? ==> forall id :: UninstallRun(id, true) !in DoAll(h, CYCLE).events
  {
    CycleIs(h);
    hide DoAll;
  }

  lemma FreeAlike(w: World, s: System, h: Key, labels: map<Label, string>, details: string)
    requires Inv(w, s) && h in s.hosts && s.hosts[h].machineRef.None?
    ensures Alike(s.hosts[h], FreshHost(labels, details)) <==> s.hosts[h].uninstallSecret.None?
  {
    assert HostOk(w, s, h, s.hosts[h]);
    assert Cleanup in RESERVED_NOTES && EndpointIP in RESERVED_NOTES;
    hide Inv;
  }

  /** Whatever is done with a free host of any run from now on, the commands it runs are those that a
      newly registered host would run, if and only if it names no uninstall secret. */
  lemma ReuseEqualsFresh(w: World, r: Run, i: nat, h: Key, labels: map<Label, string>, details: string)
    requires Sound(w) && Valid(w, r) && i < |r.states| && h in r.states[i].hosts && r.states[i].hosts[h].machineRef.None?
    ensures r.states[i].hosts[h].uninstallSecret.None? <==>
            forall ops :: DoAll(r.states[i].hosts[h], ops).events == DoAll(FreshHost(labels, details), ops).events
  {
    hide Inv, Apply, Enabled;
    Invariant(w, r, i);
    var a, b := r.states[i].hosts[h], FreshHost(labels, details);
    FreeAlike(w, r.states[i], h, labels, details);
    hide DoAll;
    if a.uninstallSecret.None? {
      forall ops ensures DoAll(a, ops).events == DoAll(b, ops).events { DoAllAlike(a, b, ops); }
    } else {
      CycleTells(a);
      CycleTells(b);
    }
  }

  // ---------------------------------------------------------------- every step is a sequence of operations

  ghost predicate Acts(a: Host, b: Host, events: seq<Event>, ops: seq<Op>) {
    DoAll(a, ops) == Pass(b, events)
  }

  lemma {:induction false} DoAllAppend(h: Host, x: seq<Op>, y: seq<Op>)
    ensures var p := DoAll(h, x); var q := DoAll(p.host, y);
            DoAll(h, x + y) == Pass(q.host, p.events + q.events)
    decreases |x|
  {
    hide Do;
    if x == [] {
      assert x + y == y;
      assert [] + DoAll(h, y).events == DoAll(h, y).events;
    } else {
      assert (x + y)[1..] == x[1..] + y;
      DoAllAppend(Do(h, x[0]).host, x[1..], y);
      var p := DoAll(Do(h, x[0]).host, x[1..]);
      var q := DoAll(p.host, y);
      assert Do(h, x[0]).events + (p.events + q.events) == Do(h, x[0]).events + p.events + q.events;
    }
  }

  lemma DoOne(h: Host, op: Op)
    ensures DoAll(h, [op]) == Do(h, op)
  {
    hide Do;
    assert [op][1..] == [];
    assert Do(h, op).events + [] == Do(h, op).events;
  }

  lemma ActsThen(a: Host, b: Host, c: Host, x: seq<Op>, op: Op)
    requires Acts(a, b, [], x) && Do(b, op) == Pass(c, [])
    ensures Acts(a, c, [], x + [op])
  {
    DoAllAppend(a, x, [op]);
    DoOne(b, op);
    hide Do, DoAll;
  }

  lemma HandsOver(b: Host, x: Host)
    requires x == b.(installSecret := x.installSecret, uninstallSecret := x.uninstallSecret)
    requires b.installSecret.Some? ==> x.installSecret == b.installSecret
    requires b.uninstallSecret.Some? ==> x.uninstallSecret == b.uninstallSecret
    ensures exists ops :: Acts(b, x, [], ops)
  {
    var b1 := b.(installSecret := x.installSecret);
    assert Acts(b, b, [], []);
    var ops: seq<Op> := [];
    if b1 != b {
      ActsThen(b, b, b1, ops, Hand(x.installSecret.value));
      ops := ops + [Hand(x.installSecret.value)];
    }
    if x != b1 {
      ActsThen(b, b1, x, ops, HandBack(x.uninstallSecret.value));
      ops := ops + [HandBack(x.uninstallSecret.value)];
    }
    assert Acts(b, x, [], ops);
  }

  lemma ThenActs(a: Host, b: Host, c: Host, op: Op, events: seq<Event>)
    requires Do(a, op) == Pass(b, []) && exists ops :: Acts(b, c, events, ops)
    ensures exists ops :: Acts(a, c, events, ops)
  {
    var ops :| Acts(b, c, events, ops);
    DoOne(a, op);
    DoAllAppend(a, [op], ops);
    hide Do, DoAll;
    assert [] + events == events;
    assert Acts(a, c, events, [op] + ops);
  }

  lemma NormalActs(w: World, s: System, k: Key, e: MachineEnv)
    requires Normal(s, k, e) && (e.fetched.Some? || Attaches(s, k, e))
    ensures var a, x := s.hosts[Target(e).value], NormalView(w, s, k, e).host;
            x.Some? && exists ops :: Acts(a, x.value, [], ops)
  {
    var a, b := s.hosts[Target(e).value], BaseHost(w, s, k, e);
    NormalHost(w, s, k, e);
    var x := NormalView(w, s, k, e).host.value;
    hide NormalView, Acts;
    HandsOver(b, x);
    if e.fetched.None? { ThenActs(a, b, x, Take(k, s.machines[k].cluster, w.tag(k), s.dataSecret[k], e), []); }
    else if e.stop != AtUnpause { ThenActs(a, b, x, Pause(false), []); }
  }

  lemma ActsNothing(a: Host)
    ensures exists ops :: Acts(a, a, [], ops)
  {
    assert Acts(a, a, [], []);
  }

  lemma ActsOne(a: Host, op: Op)
    ensures exists ops :: Acts(a, Do(a, op).host, Do(a, op).events, ops)
  {
    DoOne(a, op);
    hide Do;
    assert Acts(a, Do(a, op).host, Do(a, op).events, [op]);
  }

  /** One step, seen from one host. */
  ghost predicate StepActs(s: System, t: System, h: Key) {
    && h in s.hosts && h in t.hosts && Trace(s, h) <= Trace(t, h)
    && exists ops :: Acts(s.hosts[h], t.hosts[h], Trace(t, h)[|Trace(s, h)|..], ops)
  }

  lemma ViewActs(w: World, s: System, k: Key, e: MachineEnv)
    requires k in s.machines && FetchedOk(w, s, k, e) && PickOk(s, k, e) && e.resolvable
    ensures var x := PassView(w, s, k, e).host;
            x.Some? ==> Target(e).Some? && Target(e).value in s.hosts && exists ops :: Acts(s.hosts[Target(e).value], x.value, [], ops)
  {
    ViewFacts(w, s, k, e);
    hide NormalView, Acts;
    if e.paused || s.machines[k].deleting {
      if e.fetched.Some? {
        ActsOne(s.hosts[e.fetched.value], Pause(true));
        ActsOne(s.hosts[e.fetched.value], Mark(e.upgrading));
      }
    } else if e.fetched.Some? || Attaches(s, k, e) {
      NormalActs(w, s, k, e);
    }
  }

  lemma SameActs(s: System, t: System, h: Key)
    requires h in s.hosts && h in t.hosts && t.trace == s.trace
    requires exists ops :: Acts(s.hosts[h], t.hosts[h], [], ops)
    ensures StepActs(s, t, h)
  {
    hide Acts;
    assert Trace(t, h)[|Trace(s, h)|..] == [];
  }

  lemma ReconcileActs(w: World, s: System, k: Key, e: MachineEnv, h: Key)
    requires k in s.machines && FetchedOk(w, s, k, e) && PickOk(s, k, e) && h in s.hosts
    ensures StepActs(s, MachinePass(w, s, k, e), h)
  {
    hide PassView, WriteBack, Acts, StepActs;
    ActsNothing(s.hosts[h]);
    if e.resolvable {
      ViewActs(w, s, k, e);
      PassHosts(w, s, k, e);
      WriteBackFrame(s, k, e, PassView(w, s, k, e));
    }
    SameActs(s, MachinePass(w, s, k, e), h);
  }

  lemma HostPassActs(s: System, x: Key, cut: bool, h: Key)
    requires x in s.hosts && h in s.hosts
    ensures StepActs(s, HostPass(s, x, cut), h)
  {
    hide Acts, StepActs;
    ActsNothing(s.hosts[h]);
    ActsOne(s.hosts[h], Collect);
    SameActs(s, HostPass(s, x, cut), h);
  }

  lemma AgentActs(s: System, x: Key, skip: bool, o: Outcomes, lost: bool, h: Key)
    requires x in s.hosts && h in s.hosts
    ensures StepActs(s, ApplyAgent(s, x, skip, o, lost), h)
  {
    var t := ApplyAgent(s, x, skip, o, lost);
    hide AgentPass, JoinedNodes, Acts;
    if x == h {
      ActsOne(s.hosts[h], Work(skip, o, lost));
      assert Trace(t, h)[|Trace(s, h)|..] == AgentPass(s.hosts[h], skip, o).events;
      var ops :| Acts(s.hosts[h], t.hosts[h], AgentPass(s.hosts[h], skip, o).events, ops);
      assert Acts(s.hosts[h], t.hosts[h], Trace(t, h)[|Trace(s, h)|..], ops);
    } else {
      ActsNothing(s.hosts[h]);
      assert Trace(t, h) == Trace(s, h) && t.hosts[h] == s.hosts[h];
      assert Trace(t, h)[|Trace(s, h)|..] == [];
      assert Acts(s.hosts[h], t.hosts[h], Trace(t, h)[|Trace(s, h)|..], []);
    }
  }

  lemma EditedAgrees<K>(own: map<K, string>, edit: map<K, string>, keys: set<K>)
    requires Agree(keys, own, edit)
    ensures Edited(own, edit, keys) == edit
  {
  }

  lemma EditActs(s: System, x: Key, labels: map<Label, string>, notes: map<Note, string>, h: Key)
    requires x in s.hosts && h in s.hosts
    requires Agree(RESERVED_LABELS, s.hosts[x].labels, labels) && Agree(RESERVED_NOTES, s.hosts[x].notes, notes)
    ensures StepActs(s, PutHost(s, x, s.hosts[x].(labels := labels, notes := notes)), h)
  {
    hide Acts, StepActs, Agree, Edited;
    ActsNothing(s.hosts[h]);
    EditedAgrees(s.hosts[x].labels, labels, RESERVED_LABELS);
    EditedAgrees(s.hosts[x].notes, notes, RESERVED_NOTES);
    ActsOne(s.hosts[h], Edit(labels, notes));
    SameActs(s, PutHost(s, x, s.hosts[x].(labels := labels, notes := notes)), h);
  }

  lemma RegisterActs(s: System, x: Key, labels: map<Label, string>, details: string, h: Key)
    requires h in s.hosts
    ensures StepActs(s, PutHost(s, x, if x in s.hosts then s.hosts[x].(details := details) else FreshHost(labels, details)), h)
  {
    hide Acts, StepActs;
    ActsNothing(s.hosts[h]);
    ActsOne(s.hosts[h], Refresh(details));
    SameActs(s, PutHost(s, x, if x in s.hosts then s.hosts[x].(details := details) else FreshHost(labels, details)), h);
  }

  lemma OutsideActs(w: World, s: System, step: Step, h: Key)
    requires Enabled(w, s, step) && IsOutside(step) && step != DeleteHost(h) && h in s.hosts
    ensures StepActs(s, Apply(w, s, step), h)
  {
    hide Acts, StepActs, MachinePass, HostPass, ConfigPass, ApplyAgent;
    if step.EditHost? { EditActs(s, step.h, step.labels, step.notes, h); }
    else if step.Register? { RegisterActs(s, step.h, step.labels, step.details, h); }
    else {
      ActsNothing(s.hosts[h]);
      SameActs(s, Apply(w, s, step), h);
    }
  }

  lemma EveryStepActs(w: World, s: System, step: Step, h: Key)
    requires Enabled(w, s, step) && step != DeleteHost(h) && h in s.hosts
    ensures StepActs(s, Apply(w, s, step), h)
  {
    hide Acts, StepActs, MachinePass, HostPass, ConfigPass, ApplyAgent;
    if IsOutside(step) { OutsideActs(w, s, step, h); }
    else if step.MachineStep? { ReconcileActs(w, s, step.k, step.env, h); }
    else if step.HostStep? { HostPassActs(s, step.h, step.cut, h); }
    else if step.AgentStep? { AgentActs(s, step.h, step.skip, step.outcomes, step.lost, h); }
    else {
      ActsNothing(s.hosts[h]);
      SameActs(s, Apply(w, s, step), h);
    }
  }

  lemma ActsAppend(a: Host, b: Host, c: Host, first: seq<Event>, second: seq<Event>, x: seq<Op>, y: seq<Op>)
    requires Acts(a, b, first, x) && Acts(b, c, second, y)
    ensures Acts(a, c, first + second, x + y)
  {
    DoAllAppend(a, x, y);
    hide DoAll;
  }

  lemma ActsTogether(s: System, t: System, u: System, h: Key)
    requires StepActs(s, t, h) && StepActs(t, u, h)
    ensures StepActs(s, u, h)
  {
    hide Acts, Trace;
    var a, b, c := Trace(s, h), Trace(t, h), Trace(u, h);
    var x :| Acts(s.hosts[h], t.hosts[h], b[|a|..], x);
    var y :| Acts(t.hosts[h], u.hosts[h], c[|b|..], y);
    ActsAppend(s.hosts[h], t.hosts[h], u.hosts[h], b[|a|..], c[|b|..], x, y);
    assert c[|a|..] == b[|a|..] + c[|b|..];
  }

  /** In every stretch of every run in which its ByoHost is not deleted, what happens to a host is a
      sequence of operations, and the commands it runs are those of the sequence. */
  lemma {:induction false} RunActs(w: World, r: Run, i: nat, j: nat, h: Key)
    requires Valid(w, r) && i <= j < |r.states| && h in r.states[i].hosts
    requires forall n :: i <= n < j ==> r.steps[n] != DeleteHost(h)
    ensures StepActs(r.states[i], r.states[j], h)
    decreases j
  {
    hide Acts, StepActs, Apply, Enabled;
    if i == j {
      ActsNothing(r.states[i].hosts[h]);
      SameActs(r.states[i], r.states[j], h);
    } else {
      RunActs(w, r, i, j - 1, h);
      assert h in r.states[j - 1].hosts by { ActsPresent(r.states[i], r.states[j - 1], h); }
      assert Next(w, r, j - 1);
      EveryStepActs(w, r.states[j - 1], r.steps[j - 1], h);
      ActsTogether(r.states[i], r.states[j - 1], r.states[j], h);
    }
  }

  /** What happens to a free host without uninstall reference, in any stretch of any run in which its
      ByoHost is not deleted, is a sequence of operations that makes a newly registered host run the same commands,
      and leaves two hosts that the agent cannot tell apart. */
  lemma ReusedRun(w: World, r: Run, i: nat, j: nat, h: Key, labels: map<Label, string>, details: string)
    requires Sound(w) && Valid(w, r) && i <= j < |r.states| && h in r.states[i].hosts
    requires r.states[i].hosts[h].machineRef.None? && r.states[i].hosts[h].uninstallSecret.None?
    requires forall n :: i <= n < j ==> r.steps[n] != DeleteHost(h)
    ensures h in r.states[j].hosts && Trace(r.states[i], h) <= Trace(r.states[j], h)
    ensures exists ops ::
              var p := DoAll(FreshHost(labels, details), ops);
              && p.events == Trace(r.states[j], h)[|Trace(r.states[i], h)|..]
              && Acts(r.states[i].hosts[h], r.states[j].hosts[h], p.events, ops) && Alike(r.states[j].hosts[h], p.host)
  {
    hide Inv, Apply, Enabled;
    Invariant(w, r, i);
    FreeAlike(w, r.states[i], h, labels, details);
    RunActs(w, r, i, j, h);
    var a, b := r.states[i].hosts[h], FreshHost(labels, details);
    hide DoAll, Alike;
    var ops :| Acts(a, r.states[j].hosts[h], Trace(r.states[j], h)[|Trace(r.states[i], h)|..], ops);
    DoAllAlike(a, b, ops);
  }

  lemma ActsPresent(s: System, t: System, h: Key)
    requires StepActs(s, t, h)
    ensures h in t.hosts && Trace(s, h) <= Trace(t, h)
  {
  }

  // ---------------------------------------------------------------- foreign keys

  const OWN_LABELS := RESERVED_LABELS + {Pf9Cluster, Pf9ClusterCP}
  const OWN_NOTES := RESERVED_NOTES + {Paused}

  predicate SameForeign(a: Host, b: Host) {
    a.labels - OWN_LABELS == b.labels - OWN_LABELS && a.notes - OWN_NOTES == b.notes - OWN_NOTES
  }

  lemma WritesForeign(h: Host, on: bool, upgrading: bool)
    ensures SameForeign(h, WithPaused(h, on)) && SameForeign(h, MarkedForCleanup(h, upgrading)) && SameForeign(h, Released(h))
  {
  }

  lemma ReservedForeign(h: Host, k: Key, cluster: string, tag: string, data: string, e: MachineEnv)
    ensures SameForeign(h, Reserved(h, k, cluster, tag, data, e))
  {
    hide BaseVersion;
  }

  lemma NormalForeign(w: World, s: System, k: Key, e: MachineEnv)
    requires Normal(s, k, e) && (e.fetched.Some? || Attaches(s, k, e))
    ensures var x := NormalView(w, s, k, e).host; x.Some? && SameForeign(s.hosts[Target(e).value], x.value)
  {
    hide NormalView, WithPaused, Reserved;
    var a := s.hosts[Target(e).value];
    NormalHost(w, s, k, e);
    WritesForeign(a, false, false);
    if e.fetched.None? { ReservedForeign(a, k, s.machines[k].cluster, w.tag(k), s.dataSecret[k], e); }
  }

  lemma ReconcileForeign(w: World, s: System, k: Key, e: MachineEnv, h: Key)
    requires k in s.machines && FetchedOk(w, s, k, e) && PickOk(s, k, e) && h in s.hosts
    ensures var t := MachinePass(w, s, k, e); h in t.hosts && SameForeign(s.hosts[h], t.hosts[h])
  {
    hide MachinePass, PassView, SameForeign;
    assert SameForeign(s.hosts[h], s.hosts[h]) by { SameIsSame(s.hosts[h]); }
    if e.resolvable {
      PassHosts(w, s, k, e);
      ViewForeign(w, s, k, e);
    } else {
      Unresolved(w, s, k, e);
    }
  }

  lemma SameIsSame(h: Host)
    ensures SameForeign(h, h)
  {
  }

  lemma ViewForeign(w: World, s: System, k: Key, e: MachineEnv)
    requires k in s.machines && FetchedOk(w, s, k, e) && PickOk(s, k, e) && e.resolvable
    ensures var x := PassView(w, s, k, e).host;
            x.Some? ==> Target(e).Some? && Target(e).value in s.hosts && SameForeign(s.hosts[Target(e).value], x.value)
  {
    hide NormalView, WithPaused, MarkedForCleanup, SameForeign;
    ViewFacts(w, s, k, e);
    if e.paused || s.machines[k].deleting {
      if e.fetched.Some? { WritesForeign(s.hosts[e.fetched.value], true, e.upgrading); }
    } else if e.fetched.Some? || Attaches(s, k, e) {
      NormalForeign(w, s, k, e);
    }
  }

  lemma AgentForeign(h: Host, skip: bool, o: Outcomes)
    ensures SameForeign(h, AgentPass(h, skip, o).host)
  {
    hide AgentPass, Released;
    AgentMoves(h, skip, o);
    WritesForeign(h, false, false);
  }

  /** The ByoHost is edited by hand or deleted. */
  predicate Meddles(step: Step, h: Key) {
    (step.EditHost? && step.h == h) || step == DeleteHost(h)
  }

  lemma ForeignStep(w: World, s: System, step: Step, h: Key)
    requires Enabled(w, s, step) && h in s.hosts && !Meddles(step, h)
    ensures var t := Apply(w, s, step); h in t.hosts && SameForeign(s.hosts[h], t.hosts[h])
  {
    hide MachinePass, ConfigPass, AgentPass, JoinedNodes;
    if step.MachineStep? { ReconcileForeign(w, s, step.k, step.env, h); }
    else if step.AgentStep? { AgentForeign(s.hosts[step.h], step.skip, step.outcomes); }
  }

  /** No step of any run but an edit by hand changes a label or an annotation outside the protocol's
      own keys. */
  lemma {:induction false} ForeignUntouched(w: World, r: Run, i: nat, j: nat, h: Key)
    requires Valid(w, r) && i <= j < |r.states| && h in r.states[i].hosts
    requires forall n :: i <= n < j ==> !Meddles(r.steps[n], h)
    ensures h in r.states[j].hosts && SameForeign(r.states[i].hosts[h], r.states[j].hosts[h])
    decreases j
  {
    hide Apply, Enabled, Meddles;
    if i < j {
      ForeignUntouched(w, r, i, j - 1, h);
      assert Next(w, r, j - 1);
      ForeignStep(w, r.states[j - 1], r.steps[j - 1], h);
    }
  }

  // ---------------------------------------------------------------- skipped installation

  predicate SkipsAll(ops: seq<Op>) {
    forall i :: 0 <= i < |ops| && ops[i].Work? ==> ops[i].skip
  }

  predicate NoCleanupReset(events: seq<Event>) {
    forall i :: 0 <= i < |events| ==> !events[i].CleanupReset?
  }

  lemma SkipPass(h: Host, op: Op)
    requires !h.components.IsTrue? && (op.Work? ==> op.skip)
    ensures !Do(h, op).host.components.IsTrue? && NoCleanupReset(Do(h, op).events)
  {
    hide BaseVersion;
  }

  /** Where installation is skipped the cleanup of a host never resets the node, however the host was
      joined: the record that asks for a reset is never made. */
  lemma {:induction false} SkipNeverResets(h: Host, ops: seq<Op>)
    requires !h.components.IsTrue? && SkipsAll(ops)
    ensures NoCleanupReset(DoAll(h, ops).events)
    decreases |ops|
  {
    if ops != [] {
      SkipPass(h, ops[0]);
      hide Do;
      SkipNeverResets(Do(h, ops[0]).host, ops[1..]);
    }
  }
}
