/** No step of the manager, of a user or of the garbage collector reads or writes the two conditions
    of a ByoHost, and none writes a trace. Stated as a commutation: dressing the store with other
    conditions, other traces and nodes that are about to appear, before or after a step, is the same. */
module Overlay {
  import opened Objects
  import opened Agent
  import opened Manager
  import opened Protocol
  import opened HostMoves
  import ProviderId

  datatype Conditions = Conditions(node: Condition, components: Condition)

  function Recond(host: Host, c: Conditions): Host {
    host.(node := c.node, components := c.components)
  }

  function DressHost(d: map<Key, Conditions>, h: Key, host: Host): Host {
    if h in d then Recond(host, d[h]) else host
  }

  function Dress(hosts: map<Key, Host>, d: map<Key, Conditions>): map<Key, Host> {
    map h | h in hosts :: DressHost(d, h, hosts[h])
  }

  function WithComing(nodes: map<Key, string>, coming: set<Key>): map<Key, string> {
    (map n | n in coming :: "") + nodes
  }

  /** What is laid over a store: conditions of hosts, whole traces, and nodes that are coming. */
  datatype Layer = Layer(conditions: map<Key, Conditions>, traces: map<Key, seq<Event>>, coming: set<Key>)

  function Over(s: System, l: Layer): (t: System)
    ensures t == s.(hosts := t.hosts, trace := t.trace, nodes := t.nodes)
  {
    s.(hosts := Dress(s.hosts, l.conditions), trace := s.trace + l.traces, nodes := WithComing(s.nodes, l.coming))
  }

  // ---------------------------------------------------------------- the stages of a reconcile

  function DressView(v: View, d: map<Key, Conditions>, h: Option<Key>, node: Option<string>): (r: View)
    ensures r == v.(host := r.host, node := node)
  {
    v.(host := if v.host.Some? && h.Some? then Some(DressHost(d, h.value, v.host.value)) else v.host, node := node)
  }

  lemma StagesDress(v: View, e: MachineEnv, d: map<Key, Conditions>, h: Option<Key>, n: Option<string>)
    ensures Unpause(DressView(v, d, h, n), e) == DressView(Unpause(v, e), d, h, n)
    ensures EnsureConfig(DressView(v, d, h, n), e) == DressView(EnsureConfig(v, e), d, h, n)
    ensures NoteInfo(DressView(v, d, h, n)) == DressView(NoteInfo(v), d, h, n)
  {
  }

  lemma GivesDress(v: View, e: MachineEnv, d: map<Key, Conditions>, h: Option<Key>, n: Option<string>)
    ensures GiveInstall(DressView(v, d, h, n), e) == DressView(GiveInstall(v, e), d, h, n)
    ensures GiveUninstall(DressView(v, d, h, n), e) == DressView(GiveUninstall(v, e), d, h, n)
  {
  }

  lemma ReserveDress(w: World, v: View, k: Key, data: Option<string>, spare: Option<Host>, spare': Option<Host>, e: MachineEnv,
                     d: map<Key, Conditions>, h: Option<Key>, n: Option<string>)
    requires v.host.None? ==> (spare.Some? ==> h.Some? && spare' == Some(DressHost(d, h.value, spare.value))) && (spare.None? ==> spare'.None?)
    ensures Reserve(w, DressView(v, d, h, n), k, data, spare', e) == DressView(Reserve(w, v, k, data, spare, e), d, h, n)
  {
    hide BaseVersion;
  }

  lemma HandedOverDress(w: World, s: System, k: Key, e: MachineEnv, l: Layer)
    requires k in s.machines
    requires e.fetched.Some? ==> e.fetched.value in s.hosts
    requires e.pick.Some? ==> e.pick.value in s.hosts
    ensures HandedOver(w, Over(s, l), k, e) ==
            DressView(HandedOver(w, s, k, e), l.conditions, Target(e), Get(Over(s, l).nodes, NodeKey(s.machines[k], e)))
  {
    var o := Over(s, l);
    var d, h, n := l.conditions, Target(e), Get(o.nodes, NodeKey(s.machines[k], e));
    var v0 := StartView(s, k, e);
    assert StartView(o, k, e) == DressView(v0, d, h, n);
    hide Unpause, EnsureConfig, Reserve, NoteInfo, GiveInstall, GiveUninstall, StartView, WithComing;
    StagesDress(v0, e, d, h, n);
    var v1 := Unpause(v0, e);
    StagesDress(v1, e, d, h, n);
    var v2 := EnsureConfig(v1, e);
    var spare := if e.pick.Some? then Some(s.hosts[e.pick.value]) else None;
    var spare' := if e.pick.Some? then Some(o.hosts[e.pick.value]) else None;
    assert v2.host.None? ==> e.fetched.None? by { assert v0.host.Some? <==> e.fetched.Some? by { StartHost(s, k, e); } }
    ReserveDress(w, v2, k, Get(s.dataSecret, k), spare, spare', e, d, h, n);
    var v3 := Reserve(w, v2, k, Get(s.dataSecret, k), spare, e);
    StagesDress(v3, e, d, h, n);
    GivesDress(NoteInfo(v3), e, d, h, n);
    GivesDress(GiveInstall(NoteInfo(v3), e), e, d, h, n);
  }

  lemma StartHost(s: System, k: Key, e: MachineEnv)
    requires k in s.machines && (e.fetched.Some? ==> e.fetched.value in s.hosts)
    ensures StartView(s, k, e).host.Some? <==> e.fetched.Some?
  {
  }

  // ---------------------------------------------------------------- a reconcile of a ByoMachine

  /** A reconcile that looks for a node which is only coming finds none; over the layer, the same
      happens when its read of the node fails. */
  function Delayed(w: World, s: System, k: Key, e: MachineEnv, coming: set<Key>): (r: MachineEnv)
    ensures r == e || r == e.(stop := AtNode)
    requires k in s.machines
    requires e.fetched.Some? ==> e.fetched.value in s.hosts
    requires e.pick.Some? ==> e.pick.value in s.hosts
  {
    if e.resolvable && !e.paused && !s.machines[k].deleting && NodeKey(s.machines[k], e) in coming
       && NodeKey(s.machines[k], e) !in s.nodes && !HandedOver(w, s, k, e).done
    then e.(stop := AtNode) else e
  }

  /** A stage that is passed is passed by the same reconcile stopped later. */
  lemma StagesStop(w: World, v: View, k: Key, data: Option<string>, spare: Option<Host>, e: MachineEnv)
    ensures var e' := e.(stop := AtNode);
            && (!Unpause(v, e).done ==> Unpause(v, e') == Unpause(v, e))
            && (v.done ==> EnsureConfig(v, e).done) && (!EnsureConfig(v, e).done ==> EnsureConfig(v, e') == EnsureConfig(v, e))
            && (v.done ==> Reserve(w, v, k, data, spare, e).done)
            && (!Reserve(w, v, k, data, spare, e).done ==> Reserve(w, v, k, data, spare, e') == Reserve(w, v, k, data, spare, e))
            && (v.done ==> NoteInfo(v).done)
            && (v.done ==> GiveInstall(v, e).done) && (!GiveInstall(v, e).done ==> GiveInstall(v, e') == GiveInstall(v, e))
            && (!GiveUninstall(v, e).done ==> !v.done && GiveUninstall(v, e') == GiveUninstall(v, e))
  {
    hide WithPaused, BaseVersion;
  }

  lemma StopAtNode(w: World, s: System, k: Key, e: MachineEnv)
    requires k in s.machines
    requires e.fetched.Some? ==> e.fetched.value in s.hosts
    requires e.pick.Some? ==> e.pick.value in s.hosts
    requires !HandedOver(w, s, k, e).done
    ensures HandedOver(w, s, k, e.(stop := AtNode)) == HandedOver(w, s, k, e)
  {
    hide Unpause, EnsureConfig, Reserve, NoteInfo, GiveInstall, GiveUninstall;
    var data, spare := Get(s.dataSecret, k), if e.pick.Some? then Some(s.hosts[e.pick.value]) else None;
    var v0 := StartView(s, k, e);
    var v1 := Unpause(v0, e);
    var v2 := EnsureConfig(v1, e);
    var v3 := Reserve(w, v2, k, data, spare, e);
    var v4 := GiveInstall(NoteInfo(v3), e);
    StagesStop(w, v0, k, data, spare, e);
    StagesStop(w, v1, k, data, spare, e);
    StagesStop(w, v2, k, data, spare, e);
    StagesStop(w, v3, k, data, spare, e);
    StagesStop(w, NoteInfo(v3), k, data, spare, e);
    StagesStop(w, v4, k, data, spare, e);
  }

  lemma HandedOverNode(w: World, s: System, k: Key, e: MachineEnv)
    requires k in s.machines
    requires e.fetched.Some? ==> e.fetched.value in s.hosts
    requires e.pick.Some? ==> e.pick.value in s.hosts
    ensures HandedOver(w, s, k, e).node == Get(s.nodes, NodeKey(s.machines[k], e))
    ensures NormalView(w, s, k, e) == UpdateNode(HandedOver(w, s, k, e), NodeKey(s.machines[k], e).name, e)
  {
    hide Unpause, EnsureConfig, Reserve, NoteInfo, GiveInstall, GiveUninstall, UpdateNode;
  }

  /** The node part of two views over and under the layer. */
  predicate SameNode(s: System, key: Key, coming: set<Key>, under: Option<string>, over: Option<string>) {
    over == under || (under.None? && key in coming && key !in s.nodes && over == Some(""))
  }

  lemma UpdateNodeDress(v: View, name: string, e: MachineEnv, e': MachineEnv, d: map<Key, Conditions>, h: Option<Key>, n: Option<string>)
    requires (n == v.node && e' == e) || (v.node.None? && n.Some? && ((v.done && e' == e) || e' == e.(stop := AtNode)))
    ensures var r := UpdateNode(v, name, e);
            UpdateNode(DressView(v, d, h, n), name, e') == DressView(r, d, h, if r.node.Some? then r.node else n)
  {
    hide ProviderId.SetNodeProviderID;
  }

  lemma ComingNode(s: System, l: Layer, key: Key)
    ensures SameNode(s, key, l.coming, Get(s.nodes, key), Get(Over(s, l).nodes, key))
    ensures key in s.nodes ==> Get(Over(s, l).nodes, key) == Some(s.nodes[key])
  {
  }

  lemma DelayedDress(w: World, s: System, k: Key, e: MachineEnv, e': MachineEnv, l: Layer)
    requires k in s.machines
    requires e.fetched.Some? ==> e.fetched.value in s.hosts
    requires e.pick.Some? ==> e.pick.value in s.hosts
    requires e' == Delayed(w, s, k, e, l.coming)
    ensures HandedOver(w, Over(s, l), k, e') ==
            DressView(HandedOver(w, s, k, e), l.conditions, Target(e), Get(Over(s, l).nodes, NodeKey(s.machines[k], e)))
  {
    if !HandedOver(w, s, k, e).done { StopAtNode(w, s, k, e); }
    hide HandedOver;
    HandedOverDress(w, s, k, e', l);
    hide Over, DressView;
  }

  lemma NormalViewDress(w: World, s: System, k: Key, e: MachineEnv, e': MachineEnv, l: Layer)
    requires k in s.machines && e.resolvable && !e.paused && !s.machines[k].deleting
    requires e.fetched.Some? ==> e.fetched.value in s.hosts
    requires e.pick.Some? ==> e.pick.value in s.hosts
    requires e' == Delayed(w, s, k, e, l.coming)
    ensures NormalView(w, Over(s, l), k, e').(node := None) == DressView(NormalView(w, s, k, e), l.conditions, Target(e), None)
    ensures SameNode(s, NodeKey(s.machines[k], e), l.coming, NormalView(w, s, k, e).node, NormalView(w, Over(s, l), k, e').node)
  {
    var key := NodeKey(s.machines[k], e);
    var n := Get(Over(s, l).nodes, key);
    ComingNode(s, l, key);
    DelayedDress(w, s, k, e, e', l);
    HandedOverNode(w, s, k, e);
    HandedOverNode(w, Over(s, l), k, e');
    hide Dress, WithComing, HandedOver, UpdateNode, NormalView;
    UpdateNodeDress(HandedOver(w, s, k, e), key.name, e, e', l.conditions, Target(e), n);
  }

  lemma EarlyViewsDress(s: System, k: Key, e: MachineEnv, l: Layer)
    requires k in s.machines
    requires e.fetched.Some? ==> e.fetched.value in s.hosts
    ensures PausedView(Over(s, l), k, e) == DressView(PausedView(s, k, e), l.conditions, Target(e), None)
    ensures DeleteView(Over(s, l), k, e) == DressView(DeleteView(s, k, e), l.conditions, Target(e), None)
    ensures PausedView(s, k, e).m.cluster == s.machines[k].cluster && PausedView(s, k, e).node.None?
    ensures DeleteView(s, k, e).m.cluster == s.machines[k].cluster && DeleteView(s, k, e).node.None?
  {
    hide WithComing;
  }

  lemma PassViewDress(w: World, s: System, k: Key, e: MachineEnv, e': MachineEnv, l: Layer)
    requires k in s.machines && e.resolvable
    requires e.fetched.Some? ==> e.fetched.value in s.hosts
    requires e.pick.Some? ==> e.pick.value in s.hosts
    requires e' == Delayed(w, s, k, e, l.coming)
    ensures PassView(w, Over(s, l), k, e').(node := None) == DressView(PassView(w, s, k, e), l.conditions, Target(e), None)
    ensures SameNode(s, NodeKey(s.machines[k], e), l.coming, PassView(w, s, k, e).node, PassView(w, Over(s, l), k, e').node)
    ensures PassView(w, s, k, e).m.cluster == s.machines[k].cluster
  {
    hide NormalView, Over, HandedOver, DressView, PausedView, DeleteView;
    if e.paused || s.machines[k].deleting {
      EarlyViewsDress(s, k, e, l);
    } else {
      NormalViewDress(w, s, k, e, e', l);
      NormalCluster(w, s, k, e);
    }
  }

  lemma NormalCluster(w: World, s: System, k: Key, e: MachineEnv)
    requires k in s.machines
    requires e.fetched.Some? ==> e.fetched.value in s.hosts
    requires e.pick.Some? ==> e.pick.value in s.hosts
    ensures NormalView(w, s, k, e).m.cluster == s.machines[k].cluster
  {
    hide Unpause, EnsureConfig, Reserve, NoteInfo, GiveInstall, GiveUninstall, UpdateNode;
  }

  lemma DressPut(hosts: map<Key, Host>, d: map<Key, Conditions>, h: Key, host: Host)
    ensures Dress(hosts[h := host], d) == Dress(hosts, d)[h := DressHost(d, h, host)]
  {
    hide DressHost;
  }

  lemma WriteHostDress(s: System, k: Key, e: MachineEnv, v: View, v': View, l: Layer)
    requires v'.(node := None) == DressView(v, l.conditions, Target(e), None)
    ensures WriteHost(Over(s, l), k, e, v') == Over(WriteHost(s, k, e, v), l)
  {
    hide Dress, WithComing, DressHost;
    if v.host.Some? && Target(e).Some? { DressPut(s.hosts, l.conditions, Target(e).value, v.host.value); }
  }

  lemma ComingPut(nodes: map<Key, string>, coming: set<Key>, n: Key, id: string)
    ensures WithComing(nodes, coming)[n := id] == WithComing(nodes[n := id], coming)
  {
  }

  lemma ComingAgain(nodes: map<Key, string>, coming: set<Key>, n: Key)
    requires n in coming && n !in nodes
    ensures WithComing(nodes, coming)[n := ""] == WithComing(nodes, coming)
  {
  }

  lemma NodeDress(s: System, key: Key, under: Option<string>, over: Option<string>, coming: set<Key>)
    requires SameNode(s, key, coming, under, over)
    ensures (if over.Some? then WithComing(s.nodes, coming)[key := over.value] else WithComing(s.nodes, coming)) ==
            WithComing(if under.Some? then s.nodes[key := under.value] else s.nodes, coming)
  {
    hide WithComing;
    if under.Some? { ComingPut(s.nodes, coming, key, under.value); }
    else if over.Some? { ComingAgain(s.nodes, coming, key); }
  }

  lemma WriteRestDress(s: System, k: Key, e: MachineEnv, v: View, v': View, l: Layer)
    requires v'.m == v.m && v'.config == v.config
    requires SameNode(s, NodeKey(v.m, e), l.coming, v.node, v'.node)
    ensures WriteRest(Over(s, l), k, e, v') == Over(WriteRest(s, k, e, v), l)
  {
    NodeDress(s, NodeKey(v.m, e), v.node, v'.node, l.coming);
    hide Dress, WithComing, SameNode, NodeKey;
  }

  lemma WriteBackDress(s: System, k: Key, e: MachineEnv, e': MachineEnv, v: View, v': View, l: Layer)
    requires e' == e || e' == e.(stop := AtNode)
    requires v'.(node := None) == DressView(v, l.conditions, Target(e), None)
    requires SameNode(s, NodeKey(v.m, e), l.coming, v.node, v'.node)
    ensures WriteBack(Over(s, l), k, e', v') == Over(WriteBack(s, k, e, v), l)
  {
    WriteHostDress(s, k, e, v, v', l);
    WriteRestDress(WriteHost(s, k, e, v), k, e, v, v', l);
    assert WriteHost(Over(s, l), k, e', v') == WriteHost(Over(s, l), k, e, v');
    assert forall t :: WriteRest(t, k, e', v') == WriteRest(t, k, e, v');
    hide Dress, WithComing, WriteHost, WriteRest;
  }

  lemma SameObservations(w: World, s: System, k: Key, e: MachineEnv, l: Layer)
    requires FetchedOk(w, s, k, e) && PickOk(s, k, e)
    ensures FetchedOk(w, Over(s, l), k, e) && PickOk(Over(s, l), k, e)
  {
    forall h | h in Over(s, l).hosts ensures Carries(w, Over(s, l), h, k) <==> Carries(w, s, h, k) { }
    hide WithComing;
  }

  lemma MachinePassDress(w: World, s: System, k: Key, e: MachineEnv, e': MachineEnv, l: Layer)
    requires k in s.machines && FetchedOk(w, s, k, e) && PickOk(s, k, e)
    requires e' == Delayed(w, s, k, e, l.coming)
    ensures FetchedOk(w, Over(s, l), k, e') && PickOk(Over(s, l), k, e')
    ensures MachinePass(w, Over(s, l), k, e') == Over(MachinePass(w, s, k, e), l)
  {
    SameObservations(w, s, k, e, l);
    hide HandedOver, PassView, WriteBack, Over, DressView;
    if e.resolvable {
      PassViewDress(w, s, k, e, e', l);
      WriteBackDress(s, k, e, e', PassView(w, s, k, e), PassView(w, Over(s, l), k, e'), l);
    }
    hide Delayed;
  }

  // ---------------------------------------------------------------- any step but an agent's

  lemma DressRemove(hosts: map<Key, Host>, d: map<Key, Conditions>, h: Key)
    ensures Dress(hosts - {h}, d) == Dress(hosts, d) - {h}
  {
    hide DressHost;
  }

  lemma PutHostDress(s: System, h: Key, host: Host, l: Layer)
    ensures PutHost(Over(s, l), h, DressHost(l.conditions, h, host)) == Over(PutHost(s, h, host), l)
  {
    DressPut(s.hosts, l.conditions, h, host);
    hide Dress, WithComing, DressHost;
  }

  /** The layer does not see the parts of the store that it leaves alone. */
  lemma OverFrame(s: System, t: System, l: Layer)
    requires t.hosts == s.hosts && t.trace == s.trace && t.nodes == s.nodes
    ensures Over(t, l) == t.(hosts := Over(s, l).hosts, trace := Over(s, l).trace, nodes := Over(s, l).nodes)
  {
    hide Dress, WithComing;
  }

  lemma RegisterDress(w: World, s: System, step: Step, l: Layer)
    requires Enabled(w, s, step) && step.Register? && step.h !in l.conditions
    ensures Enabled(w, Over(s, l), step) && Apply(w, Over(s, l), step) == Over(Apply(w, s, step), l)
  {
    assert step.h in Over(s, l).hosts <==> step.h in s.hosts;
    assert step.h in s.hosts ==> Over(s, l).hosts[step.h] == s.hosts[step.h];
    hide Over, PutHost;
    PutHostDress(s, step.h, if step.h in s.hosts then s.hosts[step.h].(details := step.details) else FreshHost(step.labels, step.details), l);
  }

  lemma EditHostDress(w: World, s: System, step: Step, l: Layer)
    requires Enabled(w, s, step) && step.EditHost?
    ensures Enabled(w, Over(s, l), step) && Apply(w, Over(s, l), step) == Over(Apply(w, s, step), l)
  {
    assert step.h in Over(s, l).hosts && Over(s, l).hosts[step.h] == DressHost(l.conditions, step.h, s.hosts[step.h]);
    hide Over, PutHost;
    PutHostDress(s, step.h, s.hosts[step.h].(labels := step.labels, notes := step.notes), l);
  }

  lemma DeleteHostDress(w: World, s: System, step: Step, l: Layer)
    requires Enabled(w, s, step) && step.DeleteHost?
    ensures Enabled(w, Over(s, l), step) && Apply(w, Over(s, l), step) == Over(Apply(w, s, step), l)
  {
    DressRemove(s.hosts, l.conditions, step.h);
    hide WithComing;
  }

  lemma PutDress(s: System, k: Key, m: Machine, c: InstallerConfig, l: Layer)
    ensures PutMachine(Over(s, l), k, m) == Over(PutMachine(s, k, m), l)
    ensures PutConfig(Over(s, l), k, c) == Over(PutConfig(s, k, c), l)
  {
    hide Over;
    OverFrame(s, PutMachine(s, k, m), l);
    OverFrame(s, PutConfig(s, k, c), l);
  }

  lemma ElsewhereDress(w: World, s: System, step: Step, l: Layer)
    requires Enabled(w, s, step) && IsOutside(step) && !step.Register? && !step.EditHost? && !step.DeleteHost?
    ensures Enabled(w, Over(s, l), step) && Apply(w, Over(s, l), step) == Over(Apply(w, s, step), l)
  {
    hide Over, MachinePass, HostPass, ConfigPass, ApplyAgent, PutMachine, PutConfig;
    if step.DeleteMachine? {
      PutDress(s, step.k, s.machines[step.k].(deleting := true), NEW_CONFIG, l);
    } else if step.DropForeign? {
      PutDress(s, step.k, s.machines[step.k].(foreign := false), NEW_CONFIG, l);
    } else if step.CollectConfig? {
      PutDress(s, step.k, NewMachine("", false, false), s.configs[step.k].(deleting := true), l);
    } else {
      OverFrame(s, Apply(w, s, step), l);
      if step.CreateMachine? { TagFreeDress(w, s, step.k, l); }
    }
  }

  lemma TagFreeDress(w: World, s: System, k: Key, l: Layer)
    requires TagFree(w, s, k)
    ensures TagFree(w, Over(s, l), k)
  {
    forall h | h in Over(s, l).hosts && Over(s, l).hosts[h].machineRef.Some?
      ensures w.tag(Over(s, l).hosts[h].machineRef.value) != w.tag(k) { assert s.hosts[h].machineRef == Over(s, l).hosts[h].machineRef; }
    hide WithComing;
  }

  lemma OutsideDress(w: World, s: System, step: Step, l: Layer)
    requires Enabled(w, s, step) && IsOutside(step) && !(step.Register? && step.h in l.conditions)
    ensures Enabled(w, Over(s, l), step) && Apply(w, Over(s, l), step) == Over(Apply(w, s, step), l)
  {
    hide Over, Enabled, Apply;
    if step.Register? { RegisterDress(w, s, step, l); }
    else if step.EditHost? { EditHostDress(w, s, step, l); }
    else if step.DeleteHost? { DeleteHostDress(w, s, step, l); }
    else { ElsewhereDress(w, s, step, l); }
  }

  lemma HostPassDress(s: System, h: Key, cut: bool, l: Layer)
    requires h in s.hosts
    ensures h in Over(s, l).hosts && HostPass(Over(s, l), h, cut) == Over(HostPass(s, h, cut), l)
  {
    var host := s.hosts[h];
    assert Over(s, l).hosts[h] == DressHost(l.conditions, h, host);
    if Collects(host) {
      var s1 := s.(secrets := s.secrets - {host.uninstallSecret.value});
      OverFrame(s, s1, l);
      hide Over;
      PutHostDress(s1, h, host.(uninstallSecret := None), l);
    }
    hide Over;
  }

  lemma ConfigWorkDress(w: World, s: System, k: Key, blocked: bool, stop: ConfigStop, l: Layer)
    requires k in s.configs
    ensures ConfigWork(w, Over(s, l), k, blocked, stop) ==
            (Over(ConfigWork(w, s, k, blocked, stop).0, l), ConfigWork(w, s, k, blocked, stop).1)
  {
    hide Over;
    OverFrame(s, ConfigWork(w, s, k, blocked, stop).0, l);
  }

  lemma ConfigPassDress(w: World, s: System, k: Key, blocked: bool, stop: ConfigStop, lost: bool, l: Layer)
    ensures ConfigPass(w, Over(s, l), k, blocked, stop, lost) == Over(ConfigPass(w, s, k, blocked, stop, lost), l)
  {
    hide Over, ConfigWork;
    if k in s.configs {
      ConfigWorkDress(w, s, k, blocked, stop, l);
      var r := ConfigWork(w, s, k, blocked, stop);
      OverFrame(r.0, PutConfig(r.0, k, r.1), l);
    }
  }

  ghost function DelayStep(w: World, s: System, step: Step, coming: set<Key>): (r: Step)
    requires Enabled(w, s, step)
    ensures !step.MachineStep? ==> r == step
    ensures step.MachineStep? ==> r == step || r == MachineStep(step.k, step.env.(stop := AtNode))
  {
    if step.MachineStep? then MachineStep(step.k, Delayed(w, s, step.k, step.env, coming)) else step
  }

  lemma StepDress(w: World, s: System, step: Step, l: Layer)
    requires Enabled(w, s, step) && !step.AgentStep? && !(step.Register? && step.h in l.conditions)
    ensures Enabled(w, Over(s, l), DelayStep(w, s, step, l.coming))
    ensures Apply(w, Over(s, l), DelayStep(w, s, step, l.coming)) == Over(Apply(w, s, step), l)
  {
    hide Over, Delayed, MachinePass, HostPass, ConfigPass, ApplyAgent;
    if IsOutside(step) { OutsideDress(w, s, step, l); hide Apply; }
    else if step.MachineStep? { MachinePassDress(w, s, step.k, step.env, Delayed(w, s, step.k, step.env, l.coming), l); }
    else if step.HostStep? { HostPassDress(s, step.h, step.cut, l); }
    else { ConfigPassDress(w, s, step.k, step.blocked, step.stop, step.lostConfig, l); }
  }
}
