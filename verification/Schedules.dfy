/** Sequences of steps, each possible after the one before. */
module Schedules {
  import opened Objects
  import opened Manager
  import opened Protocol
  import opened Reservation

  ghost predicate Leads(w: World, s: System, steps: seq<Step>, t: System)
    decreases |steps|
  {
    if steps == [] then s == t
    else Enabled(w, s, steps[0]) && Leads(w, Apply(w, s, steps[0]), steps[1..], t)
  }

  lemma LeadsOne(w: World, s: System, step: Step)
    requires Enabled(w, s, step)
    ensures Leads(w, s, [step], Apply(w, s, step))
  {
    hide Enabled, Apply;
    assert [step][1..] == [];
  }

  lemma {:induction false} LeadsAppend(w: World, s: System, a: seq<Step>, m: System, b: seq<Step>, t: System)
    requires Leads(w, s, a, m) && Leads(w, m, b, t)
    ensures Leads(w, s, a + b, t)
    decreases |a|
  {
    hide Enabled, Apply;
    if a == [] { assert a + b == b; }
    else {
      LeadsAppend(w, Apply(w, s, a[0]), a[1..], m, b, t);
      assert (a + b)[1..] == a[1..] + b;
    }
  }

  lemma {:induction false} LeadsKeeps(w: World, s: System, steps: seq<Step>, t: System)
    requires Sound(w) && Inv(w, s) && Leads(w, s, steps, t)
    ensures Inv(w, t)
    decreases |steps|
  {
    hide Inv, Enabled, Apply;
    if steps != [] {
      StepKeeps(w, s, steps[0]);
      LeadsKeeps(w, Apply(w, s, steps[0]), steps[1..], t);
    }
  }

  /** A sequence of enabled steps from the empty store is a run. */
  lemma {:induction false} LeadsIsRun(w: World, r: Run, steps: seq<Step>, t: System)
    requires Valid(w, r) && Leads(w, r.states[|r.states| - 1], steps, t)
    ensures exists q: Run :: Valid(w, q) && q.steps == r.steps + steps && q.states[|q.states| - 1] == t
    decreases |steps|
  {
    hide Enabled, Apply;
    if steps == [] {
      assert r.steps + steps == r.steps;
    } else {
      var last := r.states[|r.states| - 1];
      var q := Run(r.states + [Apply(w, last, steps[0])], r.steps + [steps[0]]);
      forall i | 0 <= i < |q.steps| ensures Next(w, q, i) { if i < |r.steps| { assert Next(w, r, i); } }
      LeadsIsRun(w, q, steps[1..], t);
      assert q.steps + steps[1..] == r.steps + steps;
    }
  }

  // ---------------------------------------------------------------- steps that are heard of

  /** The agent is told of changes of its host only while the host is not paused. */
  predicate Heard(s: System, step: Step) {
    step.AgentStep? && step.h in s.hosts ==> Paused !in s.hosts[step.h].notes
  }

  /** Steps that can play out without a pass of an agent on a paused host. */
  ghost predicate Plays(w: World, s: System, steps: seq<Step>, t: System)
    decreases |steps|
  {
    if steps == [] then s == t
    else Enabled(w, s, steps[0]) && Heard(s, steps[0]) && Plays(w, Apply(w, s, steps[0]), steps[1..], t)
  }

  lemma PlaysOne(w: World, s: System, step: Step)
    requires Enabled(w, s, step) && Heard(s, step)
    ensures Plays(w, s, [step], Apply(w, s, step))
  {
    hide Enabled, Apply, Heard;
    assert [step][1..] == [];
  }

  lemma {:induction false} PlaysAppend(w: World, s: System, a: seq<Step>, m: System, b: seq<Step>, t: System)
    requires Plays(w, s, a, m) && Plays(w, m, b, t)
    ensures Plays(w, s, a + b, t)
    decreases |a|
  {
    hide Enabled, Apply, Heard;
    if a == [] { assert a + b == b; }
    else {
      PlaysAppend(w, Apply(w, s, a[0]), a[1..], m, b, t);
      assert (a + b)[1..] == a[1..] + b;
    }
  }

  lemma PlaysThen(w: World, s: System, steps: seq<Step>, m: System, step: Step)
    requires Plays(w, s, steps, m) && Enabled(w, m, step) && Heard(m, step)
    ensures Plays(w, s, steps + [step], Apply(w, m, step))
  {
    hide Enabled, Apply, Heard, Plays;
    PlaysOne(w, m, step);
    PlaysAppend(w, s, steps, m, [step], Apply(w, m, step));
  }

  lemma {:induction false} PlaysLeads(w: World, s: System, steps: seq<Step>, t: System)
    requires Plays(w, s, steps, t)
    ensures Leads(w, s, steps, t)
    decreases |steps|
  {
    hide Enabled, Apply, Heard;
    if steps != [] { PlaysLeads(w, Apply(w, s, steps[0]), steps[1..], t); }
  }
}
