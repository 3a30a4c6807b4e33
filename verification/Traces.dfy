/** Two shapes of claims about a trace of events, and how they grow when events are appended. */
module Traces {

  /** Does some `p` have no `q` after it? Computed from the left. */
  function Open<E>(b: bool, tr: seq<E>, p: E -> bool, q: E -> bool): bool
    decreases |tr|
  {
    if tr == [] then b else Open(if q(tr[0]) then false else b || p(tr[0]), tr[1..], p, q)
  }

  lemma {:induction false} OpenAppend<E>(b: bool, x: seq<E>, y: seq<E>, p: E -> bool, q: E -> bool)
    ensures Open(b, x + y, p, q) == Open(Open(b, x, p, q), y, p, q)
    decreases |x|
  {
    if x == [] {
      assert x + y == y;
    } else {
      assert (x + y)[1..] == x[1..] + y;
      OpenAppend(if q(x[0]) then false else b || p(x[0]), x[1..], y, p, q);
    }
  }

  ghost predicate LaterIn<E>(tr: seq<E>, i: nat, q: E -> bool) {
    exists j :: i < j < |tr| && q(tr[j])
  }

  /** Every `p` is followed by a `q`. */
  ghost predicate Followed<E>(tr: seq<E>, p: E -> bool, q: E -> bool) {
    forall i :: 0 <= i < |tr| && p(tr[i]) ==> LaterIn(tr, i, q)
  }

  /** Between any two `p` there is a `q`. */
  ghost predicate Separated<E>(tr: seq<E>, p: E -> bool, q: E -> bool) {
    forall i, j :: 0 <= i < j < |tr| && p(tr[i]) && p(tr[j]) ==> LaterIn(tr[..j], i, q)
  }

  lemma OpenLast<E>(tr: seq<E>, e: E, p: E -> bool, q: E -> bool)
    ensures Open(false, tr + [e], p, q) == (if q(e) then false else Open(false, tr, p, q) || p(e))
  {
    OpenAppend(false, tr, [e], p, q);
  }

  /** `Open` is exactly the failure of `Followed`. */
  lemma {:induction false} OpenIff<E>(tr: seq<E>, p: E -> bool, q: E -> bool)
    requires forall e :: !(p(e) && q(e))
    ensures Open(false, tr, p, q) <==> !Followed(tr, p, q)
  {
    if tr != [] {
      var n := |tr| - 1;
      var e, front := tr[n], tr[..n];
      assert tr == front + [e];
      OpenIff(front, p, q);
      OpenLast(front, e, p, q);
      if q(e) {
        forall i | 0 <= i < |tr| && p(tr[i]) ensures LaterIn(tr, i, q) { assert i < n && q(tr[n]); }
      } else if p(e) {
        assert !LaterIn(tr, n, q);
      } else {
        forall i | 0 <= i < n ensures LaterIn(tr, i, q) <==> LaterIn(front, i, q) {
          if LaterIn(front, i, q) { var j :| i < j < |front| && q(front[j]); assert q(tr[j]); }
          if LaterIn(tr, i, q) { var j :| i < j < |tr| && q(tr[j]); assert q(front[j]); }
        }
        if Followed(tr, p, q) { forall i | 0 <= i < n && p(front[i]) ensures LaterIn(front, i, q) { assert p(tr[i]); } }
        if Followed(front, p, q) { forall i | 0 <= i < |tr| && p(tr[i]) ensures LaterIn(tr, i, q) { assert i < n && p(front[i]); } }
      }
    }
  }

  lemma LaterPrefix<E>(tr: seq<E>, e: E, i: nat, j: nat, q: E -> bool)
    requires j <= |tr|
    ensures LaterIn((tr + [e])[..j], i, q) == LaterIn(tr[..j], i, q)
  {
    assert (tr + [e])[..j] == tr[..j];
  }

  /** A `p` may be appended when every earlier `p` has been followed by a `q`. */
  lemma SeparatedLast<E>(tr: seq<E>, e: E, p: E -> bool, q: E -> bool)
    requires Separated(tr, p, q) && (p(e) ==> Followed(tr, p, q))
    ensures Separated(tr + [e], p, q)
  {
    var big := tr + [e];
    forall i, j | 0 <= i < j < |big| && p(big[i]) && p(big[j]) ensures LaterIn(big[..j], i, q) {
      LaterPrefix(tr, e, i, j, q);
      assert p(tr[i]);
      if j < |tr| { assert p(tr[j]); } else { assert tr[..j] == tr; }
    }
  }

  /** Each `p` of `ev` comes when none is open. */
  function Spaced<E>(b: bool, ev: seq<E>, p: E -> bool, q: E -> bool): bool
    decreases |ev|
  {
    ev == [] || ((p(ev[0]) ==> !b) && Spaced(if q(ev[0]) then false else b || p(ev[0]), ev[1..], p, q))
  }

  lemma {:induction false} SeparatedAppend<E>(tr: seq<E>, ev: seq<E>, p: E -> bool, q: E -> bool)
    requires forall e :: !(p(e) && q(e))
    requires Separated(tr, p, q) && Spaced(Open(false, tr, p, q), ev, p, q)
    ensures Separated(tr + ev, p, q)
    decreases |ev|
  {
    if ev == [] {
      assert tr + ev == tr;
    } else {
      OpenIff(tr, p, q);
      OpenLast(tr, ev[0], p, q);
      SeparatedLast(tr, ev[0], p, q);
      SeparatedAppend(tr + [ev[0]], ev[1..], p, q);
      assert tr + [ev[0]] + ev[1..] == tr + ev;
    }
  }

  lemma {:induction false} SpacedIfNone<E>(b: bool, ev: seq<E>, p: E -> bool, q: E -> bool)
    requires forall i :: 0 <= i < |ev| ==> !p(ev[i])
    ensures Spaced(b, ev, p, q)
    decreases |ev|
  {
    if ev != [] { SpacedIfNone(if q(ev[0]) then false else b, ev[1..], p, q); }
  }

  /** If only the last event is a `p` and none before it a `q`, it must come when none is open. */
  lemma {:induction false} SpacedAtLast<E>(b: bool, ev: seq<E>, p: E -> bool, q: E -> bool)
    requires ev != [] && p(ev[|ev| - 1]) && forall i :: 0 <= i < |ev| - 1 ==> !p(ev[i]) && !q(ev[i])
    ensures Spaced(b, ev, p, q) <==> !b
    decreases |ev|
  {
    if |ev| > 1 { SpacedAtLast(b, ev[1..], p, q); } else { assert ev[1..] == []; }
  }

  lemma SeparatedPrefix<E>(tr: seq<E>, ev: seq<E>, p: E -> bool, q: E -> bool)
    requires Separated(tr + ev, p, q)
    ensures Separated(tr, p, q)
  {
    var big := tr + ev;
    forall i, j | 0 <= i < j < |tr| && p(tr[i]) && p(tr[j]) ensures LaterIn(tr[..j], i, q) {
      assert p(big[i]) && p(big[j]);
      assert big[..j] == tr[..j];
    }
  }

  /** Appended events keep the trace separated only if each `p` among them comes when none is open. */
  lemma {:induction false} SeparatedOnlyIf<E>(tr: seq<E>, ev: seq<E>, p: E -> bool, q: E -> bool)
    requires forall e :: !(p(e) && q(e))
    requires Separated(tr + ev, p, q)
    ensures Spaced(Open(false, tr, p, q), ev, p, q)
    decreases |ev|
  {
    if ev != [] {
      var e, n := ev[0], |tr|;
      OpenIff(tr, p, q);
      OpenLast(tr, e, p, q);
      assert tr + [e] + ev[1..] == tr + ev;
      SeparatedOnlyIf(tr + [e], ev[1..], p, q);
      if p(e) {
        forall i | 0 <= i < n && p(tr[i]) ensures LaterIn(tr, i, q) {
          assert (tr + ev)[i] == tr[i] && (tr + ev)[n] == e;
          assert (tr + ev)[..n] == tr;
        }
      }
    }
  }
}
