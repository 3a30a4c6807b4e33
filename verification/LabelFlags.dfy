/** The agent's label flag: printing a set of labels and setting labels from text. */
module LabelFlags {
  import opened Objects
  import opened Text

  /** The pair that one item `key=value` stands for. */
  function Pair(item: string): Option<(string, string)> {
    match Cut(item, '=')
    case None => None
    case Some(p) => Some((TrimSpace(p.0), TrimSpace(p.1)))
  }

  datatype Outcome = Outcome(labels: map<string, string>, ok: bool)

  /** Set the items in turn, skipping empty ones; an item without `=` ends the loop, and what was set
      before it stays set. */
  function SetItems(labels: map<string, string>, items: seq<string>): Outcome
    decreases |items|
  {
    if items == [] then Outcome(labels, true)
    else if items[0] == "" then SetItems(labels, items[1..])
    else match Pair(items[0])
      case None => Outcome(labels, false)
      case Some(p) => SetItems(labels[p.0 := p.1], items[1..])
  }

  /** What one use of the flag does. Only a list of several items may contain an empty one. */
  function SetResult(labels: map<string, string>, value: string): Outcome {
    var items := Split(value, ',');
    if |items| > 1 || items[0] != "" then SetItems(labels, items) else Outcome(labels, false)
  }

  lemma SetOne(labels: map<string, string>, item: string)
    ensures SetItems(labels, [item]) ==
            if item == "" then Outcome(labels, true)
            else match Pair(item) case None => Outcome(labels, false) case Some(p) => Outcome(labels[p.0 := p.1], true)
  {
    assert [item][1..] == [];
  }

  function Item(key: string, value: string): string {
    key + "=" + value
  }

  function Items(labels: map<string, string>, order: seq<string>): seq<string>
    requires forall i :: 0 <= i < |order| ==> order[i] in labels
  {
    seq(|order|, i requires 0 <= i < |order| => Item(order[i], labels[order[i]]))
  }

  /** `order` lists every key of `labels` once: any order in which Go may go through the map. */
  ghost predicate Orders(order: seq<string>, labels: map<string, string>) {
    && (forall i :: 0 <= i < |order| ==> order[i] in labels)
    && (forall k :: k in labels ==> k in order)
    && (forall i, j :: 0 <= i < j < |order| ==> order[i] != order[j])
  }

  function Printed(labels: map<string, string>, order: seq<string>): string
    requires forall i :: 0 <= i < |order| ==> order[i] in labels
  {
    Join(Items(labels, order), ',')
  }

  // ---------------------------------------------------------------- the flag

  class Flag {
    var labels: map<string, string>

    constructor ()
      ensures labels == map[]
    {
      labels := map[];
    }

    /** The error return is `ok == false`. */
    method Set(value: string) returns (ok: bool)
      modifies this
      ensures Outcome(labels, ok) == SetResult(old(labels), value)
    {
      var items := Split(value, ',');
      if |items| > 1 {
        var i := 0;
        while i < |items|
          invariant 0 <= i <= |items|
          invariant SetItems(labels, items[i..]) == SetItems(old(labels), items)
        {
          if items[i] != "" {
            match Pair(items[i])
            case None => return false;
            case Some(p) => labels := labels[p.0 := p.1];
          }
          i := i + 1;
        }
        return true;
      } else {
        assert items == [value];
        SetOne(labels, value);
        match Pair(value)
        case None => return false;
        case Some(p) => labels := labels[p.0 := p.1];
        return true;
      }
    }

    /** Any order of the keys may be used. */
    method String() returns (text: string)
      ensures exists order :: Orders(order, labels) && text == Printed(labels, order)
    {
      var result: seq<string> := [];
      var left := labels.Keys;
      ghost var order: seq<string> := [];
      while left != {}
        invariant left <= labels.Keys
        invariant forall i :: 0 <= i < |order| ==> order[i] in labels && order[i] !in left
        invariant forall k :: k in labels ==> k in left || k in order
        invariant forall i, j :: 0 <= i < j < |order| ==> order[i] != order[j]
        invariant result == Items(labels, order)
        decreases |left|
      {
        var key :| key in left;
        left := left - {key};
        result := result + [Item(key, labels[key])];
        order := order + [key];
      }
      text := Join(result, ',');
      assert Orders(order, labels) && text == Printed(labels, order);
    }
  }

  // ---------------------------------------------------------------- a list is its items one by one

  function OneByOne(labels: map<string, string>, items: seq<string>): Outcome
    decreases |items|
  {
    if items == [] then Outcome(labels, true)
    else if items[0] == "" then OneByOne(labels, items[1..])
    else
      var first := SetResult(labels, items[0]);
      if first.ok then OneByOne(first.labels, items[1..]) else first
  }

  lemma {:induction false} ItemsOneByOne(labels: map<string, string>, items: seq<string>)
    requires forall i :: 0 <= i < |items| ==> Free(items[i], ',')
    ensures SetItems(labels, items) == OneByOne(labels, items)
    decreases |items|
  {
    if items != [] {
      SplitFree(items[0], ',');
      SetOne(labels, items[0]);
      ItemsOneByOne(SetItems(labels, items[..1]).labels, items[1..]) by { assert items[..1] == [items[0]]; }
      assert items[..1] == [items[0]];
    }
  }

  /** A list of several items does what setting its non-empty items one by one does, up to and
      including the first error. */
  lemma ListIsOneByOne(labels: map<string, string>, items: seq<string>)
    requires |items| > 1 && forall i :: 0 <= i < |items| ==> Free(items[i], ',')
    ensures SetResult(labels, Join(items, ',')) == OneByOne(labels, items)
  {
    SplitJoin(items, ',');
    ItemsOneByOne(labels, items);
  }

  // ---------------------------------------------------------------- which texts are accepted

  predicate HasEquals(item: string) { !Free(item, '=') }

  lemma PairIff(item: string)
    ensures Pair(item).Some? <==> HasEquals(item)
  {
    var p := Cut(item, '=');
    if p.Some? { assert item[|p.value.0|] == '='; }
  }

  lemma {:induction false} ItemsOkIff(labels: map<string, string>, items: seq<string>)
    ensures SetItems(labels, items).ok <==> forall i :: 0 <= i < |items| && items[i] != "" ==> HasEquals(items[i])
    decreases |items|
  {
    if items != [] {
      PairIff(items[0]);
      hide Pair;
      var next := if items[0] != "" && Pair(items[0]).Some? then labels[Pair(items[0]).value.0 := Pair(items[0]).value.1] else labels;
      ItemsOkIff(next, items[1..]);
      assert forall i :: 0 < i < |items| ==> items[i] == items[1..][i - 1];
    }
  }

  /** A text is accepted if and only if it is not empty and each of its items that is not empty has an
      equals sign. */
  lemma AcceptedIff(labels: map<string, string>, value: string)
    ensures SetResult(labels, value).ok <==>
            value != "" && forall i :: 0 <= i < |Split(value, ',')| && Split(value, ',')[i] != "" ==> HasEquals(Split(value, ',')[i])
  {
    ItemsOkIff(labels, Split(value, ','));
    if |Split(value, ',')| == 1 { assert Join(Split(value, ','), ',') == Split(value, ',')[0]; }
  }

  /** An item without an equals sign ends the setting with an error; what the items before it have set
      stays set, and nothing behind it is. */
  lemma {:induction false} ErrorKeepsEarlier(labels: map<string, string>, before: seq<string>, bad: string, behind: seq<string>)
    requires SetItems(labels, before).ok && bad != "" && !HasEquals(bad)
    ensures SetItems(labels, before + [bad] + behind) == Outcome(SetItems(labels, before).labels, false)
    decreases |before|
  {
    var all := before + [bad] + behind;
    if before == [] {
      assert all[0] == bad;
      PairIff(bad);
    } else {
      assert all[0] == before[0] && all[1..] == before[1..] + [bad] + behind;
      hide Pair;
      var next := if before[0] != "" && Pair(before[0]).Some? then labels[Pair(before[0]).value.0 := Pair(before[0]).value.1] else labels;
      ErrorKeepsEarlier(next, before[1..], bad, behind);
    }
  }

  /** What is set last under a key stays; an item sets the trimmed text before its first equals sign to
      the trimmed text behind it. */
  lemma ItemSets(labels: map<string, string>, key: string, value: string)
    requires Free(key, '=') && Free(key, ',') && Free(value, ',')
    ensures SetResult(labels, Item(key, value)) == Outcome(labels[TrimSpace(key) := TrimSpace(value)], true)
  {
    var item := Item(key, value);
    assert Free(item, ',');
    SplitFree(item, ',');
    CutAt(key, value, '=');
    SetOne(labels, item);
  }

  // ---------------------------------------------------------------- printing and setting

  predicate CleanKey(k: string) { Trimmed(k) && Free(k, ',') && Free(k, '=') }
  predicate CleanValue(v: string) { Trimmed(v) && Free(v, ',') }

  ghost predicate Clean(labels: map<string, string>) {
    forall k :: k in labels ==> CleanKey(k) && CleanValue(labels[k])
  }

  lemma PairOfItem(k: string, v: string)
    requires CleanKey(k) && CleanValue(v)
    ensures Pair(Item(k, v)) == Some((k, v)) && Free(Item(k, v), ',') && Item(k, v) != ""
  {
    CutAt(k, v, '=');
    TrimmedIff(k);
    TrimmedIff(v);
  }

  lemma {:induction false} TrimLeftFree(s: string, c: char)
    requires Free(s, c)
    ensures Free(TrimLeft(s), c) && (TrimLeft(s) != "" ==> !IsSpace(TrimLeft(s)[0]))
  {
    if s != "" && IsSpace(s[0]) { TrimLeftFree(s[1..], c); }
  }

  lemma {:induction false} TrimRightFree(s: string, c: char)
    requires Free(s, c)
    ensures Free(TrimRight(s), c) && TrimRight(s) <= s
    ensures TrimRight(s) != "" ==> !IsSpace(TrimRight(s)[|TrimRight(s)| - 1])
  {
    if s != "" && IsSpace(s[|s| - 1]) { TrimRightFree(s[..|s| - 1], c); }
  }

  lemma TrimIsTrimmed(s: string, c: char)
    requires Free(s, c)
    ensures Trimmed(TrimSpace(s)) && Free(TrimSpace(s), c)
  {
    TrimLeftFree(s, c);
    TrimRightFree(TrimLeft(s), c);
  }

  /** Whatever is set is clean. */
  lemma {:induction false} SetIsClean(labels: map<string, string>, items: seq<string>)
    requires Clean(labels) && forall i :: 0 <= i < |items| ==> Free(items[i], ',')
    ensures Clean(SetItems(labels, items).labels)
    decreases |items|
  {
    if items != [] {
      if items[0] == "" { SetIsClean(labels, items[1..]); }
      else if Pair(items[0]).Some? {
        var raw := Cut(items[0], '=').value;
        assert Free(raw.0, ',') && Free(raw.1, ',') by {
          forall i | 0 <= i < |raw.0| ensures raw.0[i] != ',' { assert items[0][i] == raw.0[i]; }
          forall i | 0 <= i < |raw.1| ensures raw.1[i] != ',' { assert items[0][|raw.0| + 1 + i] == raw.1[i]; }
        }
        TrimIsTrimmed(raw.0, ',');
        TrimIsTrimmed(raw.0, '=');
        TrimIsTrimmed(raw.1, ',');
        var p := Pair(items[0]).value;
        SetIsClean(labels[p.0 := p.1], items[1..]);
      }
    }
  }

  function Chosen(labels: map<string, string>, order: seq<string>): map<string, string> {
    map k | k in order && k in labels :: labels[k]
  }

  lemma ChosenFirst(labels: map<string, string>, order: seq<string>, before: map<string, string>)
    requires order != [] && order[0] in labels
    ensures before[order[0] := labels[order[0]]] + Chosen(labels, order[1..]) == before + Chosen(labels, order)
  {
    assert forall k :: k in order <==> k == order[0] || k in order[1..];
  }

  lemma ChosenNone(labels: map<string, string>, before: map<string, string>)
    ensures before + Chosen(labels, []) == before
  {
  }

  /** Setting the printed items in any order adds exactly the printed labels. */
  lemma {:induction false} SetPrinted(labels: map<string, string>, order: seq<string>, before: map<string, string>)
    requires Clean(labels) && forall i :: 0 <= i < |order| ==> order[i] in labels
    ensures SetItems(before, Items(labels, order)) == Outcome(before + Chosen(labels, order), true)
    decreases |order|
  {
    hide Chosen, Pair;
    if order == [] {
      ChosenNone(labels, before);
    } else {
      PairOfItem(order[0], labels[order[0]]);
      assert Items(labels, order)[1..] == Items(labels, order[1..]);
      SetPrinted(labels, order[1..], before[order[0] := labels[order[0]]]);
      ChosenFirst(labels, order, before);
    }
  }

  /** Printing and setting again rebuilds the labels, in every order in which the map may be gone
      through, if and only if there is a label and all labels are clean. */
  lemma RoundTrip(labels: map<string, string>, order: seq<string>)
    requires Orders(order, labels)
    ensures SetResult(map[], Printed(labels, order)) == Outcome(labels, true) <==> labels != map[] && Clean(labels)
  {
    var items := Items(labels, order);
    assert |order| > 0 ==> order[0] in labels;
    if labels != map[] && Clean(labels) {
      var k :| k in labels;
      assert k in order;
      forall i | 0 <= i < |items| ensures Free(items[i], ',') && items[i] != "" { PairOfItem(order[i], labels[order[i]]); }
      SplitJoin(items, ',');
      SetPrinted(labels, order, map[]);
      assert map[] + Chosen(labels, order) == labels;
    } else if labels != map[] {
      SetIsClean(map[], Split(Printed(labels, order), ','));
    }
  }
}
