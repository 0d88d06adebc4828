/** An accepted reorder settles: read back from the store, the week is already in
    the order the rule would put it in, so the next run has nothing to reorder. */
module ProposeSettles {
  import opened Gate
  import opened StoreApply
  import opened Ordering
  import opened ProposeReply
  import opened Proposing

  /** Renumbering gives every listed task its place in the list. */
  lemma {:induction false} RenumberedPlaces(tasks: map<Id, TaskRow>, week: Id, order: seq<Id>, from: nat, k: nat)
    requires Renumbered(tasks, week, order, from).Ok? && Distinct(order) && k < |order|
    ensures var out := Renumbered(tasks, week, order, from).value;
            order[k] in out && out[order[k]].sortKey == from + k
    decreases |order|
  {
    var next, rest := tasks[order[0] := tasks[order[0]].(sortKey := from)], order[1..];
    assert forall i :: 0 <= i < |rest| ==> rest[i] == order[i + 1];
    if k > 0 {
      RenumberedPlaces(next, week, rest, from + 1, k - 1);
    } else {
      RenumberedOthers(next, week, rest, from + 1, order[0]);
    }
  }

  lemma {:induction false} RenumberedOthers(tasks: map<Id, TaskRow>, week: Id, order: seq<Id>, from: nat, id: Id)
    requires Renumbered(tasks, week, order, from).Ok? && id in tasks && id !in order
    ensures var out := Renumbered(tasks, week, order, from).value; id in out && out[id] == tasks[id]
    decreases |order|
  {
    if order != [] {
      RenumberedOthers(tasks[order[0] := tasks[order[0]].(sortKey := from)], week, order[1..], from + 1, id);
    }
  }

  /** n increasing numbers below n are 0, 1, ..., n - 1. */
  lemma {:induction false} NoRoom(ks: seq<nat>, i: nat)
    requires i < |ks| && (forall a, b :: 0 <= a < b < |ks| ==> ks[a] < ks[b]) && forall a :: 0 <= a < |ks| ==> ks[a] < |ks|
    ensures ks[i] == i
  {
    AtLeast(ks, i);
    AtMost(ks, i);
  }

  lemma {:induction false} AtLeast(ks: seq<nat>, i: nat)
    requires i < |ks| && forall a, b :: 0 <= a < b < |ks| ==> ks[a] < ks[b]
    ensures ks[i] >= i
  {
    if i > 0 {
      AtLeast(ks, i - 1);
    }
  }

  lemma {:induction false} AtMost(ks: seq<nat>, i: nat)
    requires i < |ks| && (forall a, b :: 0 <= a < b < |ks| ==> ks[a] < ks[b]) && forall a :: 0 <= a < |ks| ==> ks[a] < |ks|
    ensures ks[i] <= i
    decreases |ks| - i
  {
    if i + 1 < |ks| {
      AtMost(ks, i + 1);
    }
  }

  /** Listing the same tasks by place gives the list they were placed by. */
  lemma ListedByPlace(sorted: seq<Task>, again: seq<Task>, place: Id -> int)
    requires multiset(again) == multiset(sorted) && UniqueIds(sorted)
    requires forall k :: 0 <= k < |sorted| ==> place(sorted[k].id) == k
    requires forall i, j :: 0 <= i < j < |again| ==> place(again[i].id) <= place(again[j].id)
    ensures again == sorted
  {
    hide *;
    SameLength(again, sorted);
    IdsOfPermutation(again, sorted);
    PermutationOfUnique(again, sorted);
    var ks: seq<nat> := [];
    for i := 0 to |again|
      invariant |ks| == i && forall a :: 0 <= a < i ==> ks[a] < |sorted| && sorted[ks[a]] == again[a] && place(again[a].id) == ks[a]
    {
      var k := Find(again[i], sorted);
      ks := ks + [k];
    }
    forall a, b | 0 <= a < b < |ks| ensures ks[a] < ks[b] {
      assert again[a].id != again[b].id;
    }
    forall i | 0 <= i < |again| ensures again[i] == sorted[i] {
      NoRoom(ks, i);
    }
  }

  lemma PermutationOfUnique(again: seq<Task>, sorted: seq<Task>)
    requires multiset(TaskIds(again)) == multiset(TaskIds(sorted)) && UniqueIds(sorted)
    ensures forall a, b :: 0 <= a < b < |again| ==> again[a].id != again[b].id
  {
    PermutationIsDistinct(TaskIds(again), TaskIds(sorted));
    forall a, b | 0 <= a < b < |again| ensures again[a].id != again[b].id {
      assert TaskIds(again)[a] != TaskIds(again)[b];
    }
  }

  /** The rule's order, accepted and applied, is what the next read of the week
      shows, and the rule then asks for no change. */
  lemma ReorderSettles(open: seq<Task>, sorted: seq<Task>, alloc: seq<Alloc>, st: Store, week: Id, source: string,
                       again: seq<Task>, next: seq<Task>, d: ProposeDecision)
    requires UniqueIds(open) && IsStableSort(open, sorted, alloc)
    requires Apply(ReorderTasks(week, TaskIds(sorted)), st, [], source).Ok?
    requires multiset(again) == multiset(open)
    requires var tasks := Apply(ReorderTasks(week, TaskIds(sorted)), st, [], source).value.tasks;
             (forall t :: t in again ==> t.id in tasks)
             && forall i, j :: 0 <= i < j < |again| ==> tasks[again[i].id].sortKey <= tasks[again[j].id].sortKey
    requires IsStableSort(again, next, alloc) && d.order == TaskIds(next)
    ensures again == sorted && ReorderOps(d, TaskIds(again), week) == []
  {
    var order := TaskIds(sorted);
    var tasks := Apply(ReorderTasks(week, order), st, [], source).value.tasks;
    SortedIsUnique(open, sorted, alloc);
    forall k | 0 <= k < |sorted| ensures sorted[k].id in tasks && tasks[sorted[k].id].sortKey == k {
      assert order[k] == sorted[k].id;
      RenumberedPlaces(st.tasks, week, order, 0, k);
    }
    var place := (id: Id) => if id in tasks then tasks[id].sortKey else -1;
    hide Apply, IsStableSort, UniqueIds, Renumbered;
    assert multiset(sorted) == multiset(open);
    ListedByPlace(sorted, again, place);
    ReorderIsFixed(open, sorted, next, alloc);
  }

  lemma SortedIsUnique(open: seq<Task>, sorted: seq<Task>, alloc: seq<Alloc>)
    requires UniqueIds(open) && IsStableSort(open, sorted, alloc)
    ensures UniqueIds(sorted) && multiset(sorted) == multiset(open)
  {
    IdsOfPermutation(sorted, open);
    PermutationIsDistinct(TaskIds(sorted), TaskIds(open));
  }
}
