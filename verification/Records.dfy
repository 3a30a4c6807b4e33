/** What a reservation records on its host, and what a ByoMachine reports, over whole runs: every value
    comes from the reconcile that wrote it. */
module Records {
  import opened Objects
  import opened Agent
  import opened Manager
  import opened Protocol
  import opened Effects
  import opened Reservation
  import opened HostMoves
  import Text

  // ---------------------------------------------------------------- the reservation

  /** The version annotation is the part before the first plus sign, as strings.Split gives it. */
  lemma {:induction false} BaseVersionIsFirst(v: string)
    ensures BaseVersion(v) == Text.Split(v, '+')[0]
  {
    if v != "" && v[0] != '+' { BaseVersionIsFirst(v[1..]); }
  }

  /** The record of a reservation: its two labels, its three annotations and its bootstrap secret. */
  predicate Recorded(host: Host, k: Key, cluster: string, tag: string, data: string, e: MachineEnv) {
    && host.machineRef == Some(k) && host.bootstrapSecret == Some(BootstrapData(k.ns, data))
    && ClusterName in host.labels && host.labels[ClusterName] == cluster
    && AttachedMachine in host.labels && host.labels[AttachedMachine] == tag
    && EndpointIP in host.notes && host.notes[EndpointIP] == e.endpoint
    && K8sVersion in host.notes && host.notes[K8sVersion] == Text.Split(e.version, '+')[0]
    && BundleRegistry in host.notes && host.notes[BundleRegistry] == e.registry
  }

  lemma ReservedRecords(a: Host, k: Key, cluster: string, tag: string, data: string, e: MachineEnv)
    ensures Recorded(Reserved(a, k, cluster, tag, data, e), k, cluster, tag, data, e)
  {
    BaseVersionIsFirst(e.version);
    hide BaseVersion, Text.Split;
  }

  lemma HandedRecords(b: Host, x: Host, k: Key, cluster: string, tag: string, data: string, e: MachineEnv)
    requires Recorded(b, k, cluster, tag, data, e) && x == b.(installSecret := x.installSecret, uninstallSecret := x.uninstallSecret)
    ensures Recorded(x, k, cluster, tag, data, e)
  {
  }

  /** A reconcile that reserves a host records on it the machine, its cluster, its bootstrap secret, and
      the endpoint, the base version and the registry that this reconcile has seen. */
  lemma AttachRecords(w: World, s: System, k: Key, e: MachineEnv)
    requires k in s.machines && FetchedOk(w, s, k, e) && PickOk(s, k, e) && Attaches(s, k, e)
    ensures var t := MachinePass(w, s, k, e);
            e.pick.value in t.hosts && Recorded(t.hosts[e.pick.value], k, s.machines[k].cluster, w.tag(k), s.dataSecret[k], e)
  {
    hide MachinePass, NormalView, Reserved, Recorded, FetchedOk;
    PassHosts(w, s, k, e);
    NormalHost(w, s, k, e);
    var a := s.hosts[e.pick.value];
    ReservedRecords(a, k, s.machines[k].cluster, w.tag(k), s.dataSecret[k], e);
    HandedRecords(BaseHost(w, s, k, e), NormalView(w, s, k, e).host.value, k, s.machines[k].cluster, w.tag(k), s.dataSecret[k], e);
  }

  /** Two hosts with the same record. */
  predicate SameValues(a: Host, b: Host) {
    && b.machineRef == a.machineRef && b.bootstrapSecret == a.bootstrapSecret
    && Agree(RESERVED_LABELS, a.labels, b.labels) && Agree({EndpointIP, K8sVersion, BundleRegistry}, a.notes, b.notes)
  }

  lemma SameRecorded(a: Host, b: Host, k: Key, cluster: string, tag: string, data: string, e: MachineEnv)
    requires Recorded(a, k, cluster, tag, data, e) && SameValues(a, b)
    ensures Recorded(b, k, cluster, tag, data, e)
  {
    hide Text.Split;
  }

  predicate ReservesNow(s: System, step: Step, k: Key, h: Key) {
    step.MachineStep? && step.k == k && k in s.machines && Attaches(s, k, step.env) && step.env.pick == Some(h)
  }

  lemma AgentKeepsValues(h: Host, skip: bool, o: Outcomes)
    ensures var q := AgentPass(h, skip, o).host; q.machineRef.Some? ==> SameValues(h, q)
  {
    hide AgentPass;
    AgentMoves(h, skip, o);
  }

  lemma OutsideKeepsValues(w: World, s: System, step: Step, h: Key, k: Key)
    requires Enabled(w, s, step) && IsOutside(step)
    requires h in Apply(w, s, step).hosts && Apply(w, s, step).hosts[h].machineRef == Some(k)
    ensures h in s.hosts && SameValues(s.hosts[h], Apply(w, s, step).hosts[h])
  {
    hide Apply, Enabled;
    OutsideMoves(w, s, step, h);
    assert forall x :: x in {EndpointIP, K8sVersion, BundleRegistry} ==> x in RESERVED_NOTES;
  }

  /** A host that is held after a step was held before, with the same record, or the step reserves it. */
  lemma StepKeepsValues(w: World, s: System, step: Step, h: Key, k: Key)
    requires Inv(w, s) && Enabled(w, s, step)
    requires h in Apply(w, s, step).hosts && Apply(w, s, step).hosts[h].machineRef == Some(k)
    ensures ReservesNow(s, step, k, h) || (h in s.hosts && SameValues(s.hosts[h], Apply(w, s, step).hosts[h]))
  {
    hide Inv, Enabled, Apply, MachinePass, HostPass, ConfigPass, AgentPass, FetchedOk, PickOk;
    PassApplies(w, s, step);
    if IsOutside(step) { OutsideKeepsValues(w, s, step, h, k); }
    else if step.MachineStep? { ReconcileMoves(w, s, step.k, step.env, h); }
    else if step.AgentStep? { AgentKeepsValues(s.hosts[step.h], step.skip, step.outcomes); }
  }

  /** In every run a held host carries exactly what the reconcile that reserved it for this machine has
      recorded. */
  ghost predicate RecordedBefore(w: World, r: Run, i: nat, h: Key, k: Key)
    requires Valid(w, r) && i < |r.states|
  {
    exists n :: 0 <= n < i && RecordedAt(w, r, n, i, h, k)
  }

  predicate RecordedAt(w: World, r: Run, n: nat, i: nat, h: Key, k: Key)
    requires |r.states| == |r.steps| + 1 && n < i < |r.states|
  {
    var s := r.states[n];
    && ReservesNow(s, r.steps[n], k, h) && h in r.states[i].hosts
    && Recorded(r.states[i].hosts[h], k, s.machines[k].cluster, w.tag(k), s.dataSecret[k], r.steps[n].env)
  }

  lemma RecordedStays(w: World, r: Run, n: nat, i: nat, h: Key, k: Key)
    requires |r.states| == |r.steps| + 1 && n < i - 1 < i < |r.states| && RecordedAt(w, r, n, i - 1, h, k)
    requires h in r.states[i].hosts && SameValues(r.states[i - 1].hosts[h], r.states[i].hosts[h])
    ensures RecordedAt(w, r, n, i, h, k)
  {
    hide Recorded, SameValues;
    var s := r.states[n];
    SameRecorded(r.states[i - 1].hosts[h], r.states[i].hosts[h], k, s.machines[k].cluster, w.tag(k), s.dataSecret[k], r.steps[n].env);
  }

  lemma {:induction false} HeldAsRecorded(w: World, r: Run, i: nat, h: Key, k: Key)
    requires Sound(w) && Valid(w, r) && i < |r.states| && h in r.states[i].hosts && r.states[i].hosts[h].machineRef == Some(k)
    ensures RecordedBefore(w, r, i, h, k)
  {
    hide Inv, Apply, Enabled, RecordedAt, SameValues, ReservesNow;
    if i > 0 {
      Invariant(w, r, i - 1);
      assert Next(w, r, i - 1);
      var s, step := r.states[i - 1], r.steps[i - 1];
      StepKeepsValues(w, s, step, h, k);
      if ReservesNow(s, step, k, h) {
        NowRecorded(w, r, i - 1, h, k);
      } else {
        assert s.hosts[h].machineRef == Some(k) by { SameHolder(s.hosts[h], r.states[i].hosts[h]); }
        HeldAsRecorded(w, r, i - 1, h, k);
        var n :| 0 <= n < i - 1 && RecordedAt(w, r, n, i - 1, h, k);
        RecordedStays(w, r, n, i, h, k);
      }
    }
  }

  lemma SameHolder(a: Host, b: Host)
    requires SameValues(a, b)
    ensures a.machineRef == b.machineRef
  {
  }

  lemma NowRecorded(w: World, r: Run, n: nat, h: Key, k: Key)
    requires Valid(w, r) && n + 1 < |r.states| && ReservesNow(r.states[n], r.steps[n], k, h) && Next(w, r, n)
    ensures RecordedAt(w, r, n, n + 1, h, k)
  {
    hide Enabled, Apply, MachinePass, Recorded, FetchedOk, PickOk;
    PassApplies(w, r.states[n], r.steps[n]);
    AttachRecords(w, r.states[n], k, r.steps[n].env);
  }

  // ---------------------------------------------------------------- registration

  /** A host that registers for the first time has the labels and details it gives and nothing else; one
      that is known gets the new details, and all else of it stays. */
  lemma RegisterRecords(w: World, s: System, h: Key, labels: map<Label, string>, details: string)
    requires Enabled(w, s, Register(h, labels, details))
    ensures var t := Apply(w, s, Register(h, labels, details));
            && t.hosts.Keys == s.hosts.Keys + {h} && (forall x :: x in s.hosts && x != h ==> t.hosts[x] == s.hosts[x])
            && t.hosts[h].details == details
            && (h in s.hosts ==> t.hosts[h] == s.hosts[h].(details := details))
            && (h !in s.hosts ==>
                  var host := t.hosts[h];
                  && host.labels == labels && host.notes == map[] && host.machineRef.None? && !host.deleting
                  && host.bootstrapSecret.None? && host.installSecret.None? && host.uninstallSecret.None?
                  && host.node == Unset && host.components == Unset)
  {
    hide MachinePass, HostPass, ConfigPass, ApplyAgent;
  }
}
