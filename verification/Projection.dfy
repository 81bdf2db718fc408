/** Counting a project's open work (backlog.ts). */
module Projection {
  import opened Wrappers
  import opened Texts
  import opened Ledger
  import opened Loader

  datatype Counts = Counts(actionable: nat, blocked: nat, unreconciled: nat, totalOpen: nat)

  predicate Selected(item: Item, project: Text, counted: Item -> bool) {
    item.project == project && item.Open() && counted(item)
  }

  predicate IsActionable(item: Item) {
    item.state.Ready? || item.state.Assigned? || item.state.Implementing? || item.state.InReview?
    || item.state.Publishing?
  }

  /** How many items satisfy a test. */
  function Count(items: seq<Item>, test: Item -> bool): nat {
    if items == [] then 0
    else Count(items[..|items| - 1], test) + if test(items[|items| - 1]) then 1 else 0
  }

  function Projected(items: seq<Item>, project: Text, counted: Item -> bool): Counts {
    Counts(
      Count(items, (item: Item) => Selected(item, project, counted) && IsActionable(item)),
      Count(items, (item: Item) => Selected(item, project, counted) && item.state.Blocked?),
      Count(items, (item: Item) => Selected(item, project, counted) && item.state.Unreconciled?),
      Count(items, (item: Item) => Selected(item, project, counted)))
  }

  lemma {:induction false} CountOfRest(items: seq<Item>, test: Item -> bool, i: nat)
    requires i < |items|
    ensures Count(items, test) == Count(items[..i] + items[i + 1..], test) + if test(items[i]) then 1 else 0
  {
    var front := items[..|items| - 1];
    var without := items[..i] + items[i + 1..];
    if i < |front| {
      CountOfRest(front, test, i);
      assert without[..|without| - 1] == front[..i] + front[i + 1..];
      assert without[|without| - 1] == items[|items| - 1];
    } else {
      assert without == front;
    }
  }

  /** The counts do not depend on the order of the items. */
  lemma {:induction false} CountIgnoresOrder(a: seq<Item>, b: seq<Item>, test: Item -> bool)
    requires multiset(a) == multiset(b)
    ensures Count(a, test) == Count(b, test)
    decreases |a|
  {
    assert |multiset(a)| == |multiset(b)|;
    if a != [] {
      var last := a[|a| - 1];
      assert last in multiset(b);
      var i :| 0 <= i < |b| && b[i] == last;
      WithoutOne(a, |a| - 1);
      WithoutOne(b, i);
      assert a[..|a| - 1] + a[|a|..] == a[..|a| - 1];
      CountIgnoresOrder(a[..|a| - 1], b[..i] + b[i + 1..], test);
      CountOfRest(b, test, i);
    }
  }

  lemma WithoutOne(items: seq<Item>, i: nat)
    requires i < |items|
    ensures multiset(items[..i] + items[i + 1..]) == multiset(items) - multiset{items[i]}
  {
    assert items == items[..i] + [items[i]] + items[i + 1..];
  }

  lemma ProjectionIgnoresOrder(a: Backlog, b: Backlog, project: Text, counted: Item -> bool)
    requires SameLedger(a, b)
    ensures Projected(a.items, project, counted) == Projected(b.items, project, counted)
  {
    hide Count, Selected;
    CountIgnoresOrder(a.items, b.items, (item: Item) => Selected(item, project, counted) && IsActionable(item));
    CountIgnoresOrder(a.items, b.items, (item: Item) => Selected(item, project, counted) && item.state.Blocked?);
    CountIgnoresOrder(a.items, b.items, (item: Item) => Selected(item, project, counted) && item.state.Unreconciled?);
    CountIgnoresOrder(a.items, b.items, (item: Item) => Selected(item, project, counted));
  }

  lemma {:induction false} CountAfterReplace(items: seq<Item>, test: Item -> bool, m: nat, updated: Item)
    requires m < |items| && items[m].id == updated.id
    requires forall i, j :: 0 <= i < j < |items| ==> items[i].id != items[j].id
    ensures Count(Replace(items, updated), test) + (if test(items[m]) then 1 else 0)
            == Count(items, test) + if test(updated) then 1 else 0
  {
    var replaced := Replace(items, updated);
    CountOfRest(items, test, m);
    CountOfRest(replaced, test, m);
    assert replaced[..m] + replaced[m + 1..] == items[..m] + items[m + 1..];
  }

  function One(b: bool): nat { if b then 1 else 0 }

  /** A step of one item moves exactly that item from count to count; a closed one leaves the open total. */
  lemma StepMovesOneCount(st: Backlog, m: nat, change: Change, project: Text)
    requires m < |st.items| && st.items[m].project == project && st.items[m].Open()
    requires forall i, j :: 0 <= i < j < |st.items| ==> st.items[i].id != st.items[j].id
    ensures var before := Projected(st.items, project, _ => true);
            var after := Projected(Advance(st, st.items[m], change).items, project, _ => true);
            var item, moved := st.items[m], Updated(st.items[m], change);
            && after.actionable + One(IsActionable(item)) == before.actionable + One(IsActionable(moved))
            && after.blocked + One(item.state.Blocked?) == before.blocked + One(moved.state.Blocked?)
            && after.unreconciled + One(item.state.Unreconciled?)
               == before.unreconciled + One(moved.state.Unreconciled?)
            && after.totalOpen + 1 == before.totalOpen + One(moved.Open())
  {
    hide Count, Replace;
    var updated, all := Updated(st.items[m], change), (_: Item) => true;
    CountAfterReplace(st.items, (item: Item) => Selected(item, project, all) && IsActionable(item), m, updated);
    CountAfterReplace(st.items, (item: Item) => Selected(item, project, all) && item.state.Blocked?, m, updated);
    CountAfterReplace(st.items, (item: Item) => Selected(item, project, all) && item.state.Unreconciled?, m, updated);
    CountAfterReplace(st.items, (item: Item) => Selected(item, project, all), m, updated);
  }
}
