/** The nodes of the workload clusters over whole runs: a node's provider ID is written once, with an
    ID that the check for that host accepts, whatever reconciles follow. */
module Nodes {
  import opened Objects
  import opened Agent
  import opened Manager
  import opened Protocol
  import opened Effects
  import opened Reservation
  import opened Overlay
  import ProviderId

  /** How the ID of one node may change in a step. */
  predicate IdMoves(n: Key, before: string, after: string) {
    after == before || (before == "" && after != "" && ProviderId.Accepts(n.name, after))
  }

  predicate NodeMoves(s: System, t: System, n: Key) {
    if n in s.nodes then n in t.nodes && IdMoves(n, s.nodes[n], t.nodes[n])
    else n in t.nodes ==> t.nodes[n] == ""
  }

  lemma UpdateMoves(n: Key, v: View, e: MachineEnv)
    requires v.node.Some? && (v.host.Some? ==> ProviderId.LegalName(n.name)) && ProviderId.LegalSuffix(e.suffix)
    ensures var r := UpdateNode(v, n.name, e).node; r.Some? && IdMoves(n, v.node.value, r.value)
  {
    if v.host.Some? { ProviderId.AcceptsIff(n.name, n.name, e.suffix); }
    hide ProviderId.Accepts;
  }

  lemma ViewNodeMoves(w: World, s: System, k: Key, e: MachineEnv)
    requires k in s.machines && FetchedOk(w, s, k, e) && PickOk(s, k, e) && ProviderId.LegalSuffix(e.suffix) && e.resolvable
    requires forall h :: h in s.hosts ==> ProviderId.LegalName(h.name)
    ensures var v, n := PassView(w, s, k, e), NodeKey(s.machines[k], e);
            && v.m.cluster == s.machines[k].cluster
            && (v.node.Some? ==> n in s.nodes && IdMoves(n, s.nodes[n], v.node.value))
  {
    var n := NodeKey(s.machines[k], e);
    if !e.paused && !s.machines[k].deleting {
      var v := HandedOver(w, s, k, e);
      HandedOverNode(w, s, k, e);
      NormalCluster(w, s, k, e);
      NormalHost(w, s, k, e);
      hide NormalView, HandedOver, IdMoves, ProviderId.LegalName, ProviderId.LegalSuffix;
      if v.node.Some? { UpdateMoves(n, v, e); }
    }
    hide NormalView, IdMoves;
  }

  lemma ReconcileNodes(w: World, s: System, k: Key, e: MachineEnv, n: Key)
    requires k in s.machines && FetchedOk(w, s, k, e) && PickOk(s, k, e) && ProviderId.LegalSuffix(e.suffix)
    requires forall h :: h in s.hosts ==> ProviderId.LegalName(h.name)
    ensures NodeMoves(s, MachinePass(w, s, k, e), n)
  {
    hide PassView, WriteBack, ProviderId.Accepts, ProviderId.LegalName, ProviderId.LegalSuffix;
    if e.resolvable {
      ViewNodeMoves(w, s, k, e);
      WriteBackNodes(s, k, e, PassView(w, s, k, e));
    }
  }

  lemma WriteBackNodes(s: System, k: Key, e: MachineEnv, v: View)
    ensures WriteBack(s, k, e, v).nodes == if v.node.Some? then s.nodes[NodeKey(v.m, e) := v.node.value] else s.nodes
  {
    hide WriteHost, PutMachine;
  }

  lemma LegalHosts(w: World, s: System)
    requires Inv(w, s)
    ensures forall h :: h in s.hosts ==> ProviderId.LegalName(h.name)
  {
    forall h | h in s.hosts ensures ProviderId.LegalName(h.name) { assert HostOk(w, s, h, s.hosts[h]); }
  }

  lemma AgentNodes(s: System, h: Key, skip: bool, o: Outcomes, lost: bool, n: Key)
    requires h in s.hosts
    ensures NodeMoves(s, ApplyAgent(s, h, skip, o, lost), n)
  {
    hide AgentPass, ProviderId.Accepts;
  }

  lemma StepNodes(w: World, s: System, step: Step, n: Key)
    requires Inv(w, s) && Enabled(w, s, step)
    ensures NodeMoves(s, Apply(w, s, step), n)
  {
    hide Inv, MachinePass, ConfigPass, HostPass, ApplyAgent, PutMachine, PutConfig, PutHost, ProviderId.Accepts, ProviderId.LegalName, ProviderId.LegalSuffix;
    if step.MachineStep? { LegalHosts(w, s); ReconcileNodes(w, s, step.k, step.env, n); }
    else if step.AgentStep? { AgentNodes(s, step.h, step.skip, step.outcomes, step.lost, n); }
  }

  /** In every run: every node's ID is empty or accepted for the node's own name, and an ID that has
      been written is never written again. */
  lemma {:induction false} IdWrittenOnce(w: World, r: Run, i: nat, j: nat, n: Key)
    requires Sound(w) && Valid(w, r) && i <= j < |r.states|
    ensures n in r.states[j].nodes && r.states[j].nodes[n] != "" ==> ProviderId.Accepts(n.name, r.states[j].nodes[n])
    ensures n in r.states[i].nodes ==> n in r.states[j].nodes
    ensures n in r.states[i].nodes && r.states[i].nodes[n] != "" ==> r.states[j].nodes[n] == r.states[i].nodes[n]
    decreases j
  {
    hide Inv, Apply, Enabled, ProviderId.Accepts;
    if j > 0 {
      IdWrittenOnce(w, r, if i < j then i else j - 1, j - 1, n);
      Invariant(w, r, j - 1);
      assert Next(w, r, j - 1);
      StepNodes(w, r.states[j - 1], r.steps[j - 1], n);
    }
  }
}
