/** The order the scheduling rule puts a week's open tasks in. */
module Ordering {
  import opened Prelude
  import opened Transitions
  import opened Gate

  datatype Task = Task(id: Id, status: TaskStatus, direction: Option<Id>, createdAt: int)

  function Tier(s: TaskStatus): nat {
    match s
    case InProgress => 0
    case Planned => 1
    case Backlog => 2
    case _ => 3
  }

  /** The share of the first allocation that names the direction; none counts as 0. */
  function PctOf(d: Option<Id>, alloc: seq<Alloc>): nat {
    if d.None? || alloc == [] then 0
    else if alloc[0].direction == d.value then alloc[0].pct
    else PctOf(d, alloc[1..])
  }

  /** What two tasks are compared by: status tier, then share (largest first),
      then age. */
  datatype Rank = Rank(tier: nat, pct: nat, createdAt: int)

  function RankOf(t: Task, alloc: seq<Alloc>): Rank {
    Rank(Tier(t.status), PctOf(t.direction, alloc), t.createdAt)
  }

  predicate Leq(a: Rank, b: Rank) {
    || a.tier < b.tier
    || (a.tier == b.tier && (a.pct > b.pct || (a.pct == b.pct && a.createdAt <= b.createdAt)))
  }

  ghost predicate Sorted(ts: seq<Task>, alloc: seq<Alloc>) {
    forall i, j :: 0 <= i < j < |ts| ==> Leq(RankOf(ts[i], alloc), RankOf(ts[j], alloc))
  }

  /** The tasks of one rank, in the order they come. */
  function Only(ts: seq<Task>, alloc: seq<Alloc>, r: Rank): seq<Task> {
    if ts == [] then [] else (if RankOf(ts[0], alloc) == r then [ts[0]] else []) + Only(ts[1..], alloc, r)
  }

  /** In order, the same tasks, and ties left as they were. */
  ghost predicate IsStableSort(ts: seq<Task>, out: seq<Task>, alloc: seq<Alloc>) {
    && Sorted(out, alloc) && multiset(out) == multiset(ts)
    && forall r :: Only(out, alloc, r) == Only(ts, alloc, r)
  }

  lemma {:induction false} OnlyConcat(a: seq<Task>, b: seq<Task>, alloc: seq<Alloc>, r: Rank)
    ensures Only(a + b, alloc, r) == Only(a, alloc, r) + Only(b, alloc, r)
  {
    if a == [] {
      assert a + b == b;
    } else {
      assert (a + b)[1..] == a[1..] + b;
      OnlyConcat(a[1..], b, alloc, r);
    }
  }

  lemma {:induction false} OnlyNone(ts: seq<Task>, alloc: seq<Alloc>, r: Rank)
    requires forall i :: 0 <= i < |ts| ==> RankOf(ts[i], alloc) != r
    ensures Only(ts, alloc, r) == []
  {
    if ts != [] {
      OnlyNone(ts[1..], alloc, r);
    }
  }

  lemma OnlyOne(t: Task, alloc: seq<Alloc>, r: Rank)
    ensures Only([t], alloc, r) == if RankOf(t, alloc) == r then [t] else []
  {
    assert [t][1..] == [];
    assert Only([t], alloc, r) == (if RankOf(t, alloc) == r then [t] else []) + Only([], alloc, r);
  }

  /** Putting a task behind everything that may stand before it keeps ties stable. */
  lemma InsertIsStable(front: seq<Task>, t: Task, back: seq<Task>, alloc: seq<Alloc>)
    requires Sorted(front + back, alloc)
    requires forall i :: 0 <= i < |front| ==> Leq(RankOf(front[i], alloc), RankOf(t, alloc))
    requires forall i :: 0 <= i < |back| ==> !Leq(RankOf(back[i], alloc), RankOf(t, alloc))
    ensures Sorted(front + [t] + back, alloc)
    ensures forall r :: Only(front + [t] + back, alloc, r) == Only(front + back + [t], alloc, r)
  {
    var all := front + [t] + back;
    forall i, j | 0 <= i < j < |all| ensures Leq(RankOf(all[i], alloc), RankOf(all[j], alloc)) {
      var was := front + back;
      if i != |front| && j != |front| {
        var i', j' := if i < |front| then i else i - 1, if j < |front| then j else j - 1;
        assert all[i] == was[i'] && all[j] == was[j'];
      }
    }
    forall r ensures Only(front + [t] + back, alloc, r) == Only(front + back + [t], alloc, r) {
      OnlyConcat(front + [t], back, alloc, r);
      OnlyConcat(front, [t], alloc, r);
      OnlyConcat(front + back, [t], alloc, r);
      OnlyConcat(front, back, alloc, r);
      OnlyOne(t, alloc, r);
      if RankOf(t, alloc) == r {
        OnlyNone(back, alloc, r);
      }
      hide Only;
      assert Only(front, alloc, r) + [] == Only(front, alloc, r);
    }
  }

  /** The rule's order: a stable sort of the week's open tasks. */
  method ReorderReflex(ts: seq<Task>, alloc: seq<Alloc>) returns (out: seq<Task>)
    ensures IsStableSort(ts, out, alloc)
  {
    out := [];
    for i := 0 to |ts|
      invariant IsStableSort(ts[..i], out, alloc)
    {
      var k := |out|;
      while k > 0 && !Leq(RankOf(out[k - 1], alloc), RankOf(ts[i], alloc))
        invariant 0 <= k <= |out|
        invariant forall j :: k <= j < |out| ==> !Leq(RankOf(out[j], alloc), RankOf(ts[i], alloc))
      {
        k := k - 1;
      }
      InsertNext(ts, i, out, k, alloc);
      out := out[..k] + [ts[i]] + out[k..];
    }
    assert ts[..|ts|] == ts;
  }

  lemma InsertNext(ts: seq<Task>, i: nat, out: seq<Task>, k: nat, alloc: seq<Alloc>)
    requires i < |ts| && k <= |out| && IsStableSort(ts[..i], out, alloc)
    requires k > 0 ==> Leq(RankOf(out[k - 1], alloc), RankOf(ts[i], alloc))
    requires forall j :: k <= j < |out| ==> !Leq(RankOf(out[j], alloc), RankOf(ts[i], alloc))
    ensures IsStableSort(ts[..i + 1], out[..k] + [ts[i]] + out[k..], alloc)
  {
    hide Only, RankOf, Leq;
    var t, front, back := ts[i], out[..k], out[k..];
    assert front + back == out && ts[..i + 1] == ts[..i] + [t];
    forall j | 0 <= j < |front| ensures Leq(RankOf(front[j], alloc), RankOf(t, alloc)) {
      if j < k - 1 {
        assert Leq(RankOf(out[j], alloc), RankOf(out[k - 1], alloc));
        LeqChains(RankOf(out[j], alloc), RankOf(out[k - 1], alloc), RankOf(t, alloc));
      }
    }
    InsertIsStable(front, t, back, alloc);
    InsertKeepsTasks(front, t, back, ts[..i]);
    hide Sorted;
    forall r ensures Only(front + [t] + back, alloc, r) == Only(ts[..i + 1], alloc, r) {
      OnlyConcat(out, [t], alloc, r);
      OnlyConcat(ts[..i], [t], alloc, r);
    }
  }

  lemma LeqChains(a: Rank, b: Rank, c: Rank)
    requires Leq(a, b) && Leq(b, c)
    ensures Leq(a, c)
  {
  }

  lemma InsertKeepsTasks(front: seq<Task>, t: Task, back: seq<Task>, before: seq<Task>)
    requires multiset(front + back) == multiset(before)
    ensures multiset(front + [t] + back) == multiset(before + [t])
  {
    assert multiset(front + [t] + back) == multiset(front) + multiset{t} + multiset(back);
    assert multiset(front + back) == multiset(front) + multiset(back);
  }

  // ------------------------------------------------------- one stable order

  lemma OnlyOfHead(ts: seq<Task>, alloc: seq<Alloc>)
    requires ts != []
    ensures var own := Only(ts, alloc, RankOf(ts[0], alloc)); own != [] && own[0] == ts[0]
  {
  }

  lemma {:induction false} OnlyHasRank(ts: seq<Task>, alloc: seq<Alloc>, r: Rank)
    requires Only(ts, alloc, r) != []
    ensures exists i :: 0 <= i < |ts| && RankOf(ts[i], alloc) == r
  {
    if RankOf(ts[0], alloc) != r {
      OnlyHasRank(ts[1..], alloc, r);
      var i :| 0 <= i < |ts[1..]| && RankOf(ts[1..][i], alloc) == r;
      assert ts[i + 1] == ts[1..][i];
    }
  }

  lemma SameHead(a: seq<Task>, b: seq<Task>, alloc: seq<Alloc>)
    requires a != [] && b != [] && Sorted(a, alloc) && Sorted(b, alloc)
    requires forall r :: Only(a, alloc, r) == Only(b, alloc, r)
    ensures a[0] == b[0]
  {
    var ra, rb := RankOf(a[0], alloc), RankOf(b[0], alloc);
    OnlyOfHead(a, alloc);
    OnlyOfHead(b, alloc);
    OnlyHasRank(b, alloc, ra);
    OnlyHasRank(a, alloc, rb);
    hide Only, RankOf;
    var i :| 0 <= i < |b| && RankOf(b[i], alloc) == ra;
    var j :| 0 <= j < |a| && RankOf(a[j], alloc) == rb;
    assert Leq(ra, rb) && Leq(rb, ra);
    assert ra == rb;
  }

  lemma {:induction false} StableSortUnique(a: seq<Task>, b: seq<Task>, alloc: seq<Alloc>)
    requires Sorted(a, alloc) && Sorted(b, alloc)
    requires forall r :: Only(a, alloc, r) == Only(b, alloc, r)
    ensures a == b
  {
    if a == [] {
      if b != [] {
        OnlyOfHead(b, alloc);
      }
    } else {
      OnlyOfHead(a, alloc);
      SameHead(a, b, alloc);
      forall r ensures Only(a[1..], alloc, r) == Only(b[1..], alloc, r) {
        OnlyTail(a, b, alloc, r);
      }
      hide Only, RankOf, Leq;
      StableSortUnique(a[1..], b[1..], alloc);
      assert a == [a[0]] + a[1..] && b == [b[0]] + b[1..];
    }
  }

  lemma OnlyTail(a: seq<Task>, b: seq<Task>, alloc: seq<Alloc>, r: Rank)
    requires a != [] && b != [] && a[0] == b[0] && Only(a, alloc, r) == Only(b, alloc, r)
    ensures Only(a[1..], alloc, r) == Only(b[1..], alloc, r)
  {
    var head := if RankOf(a[0], alloc) == r then [a[0]] else [];
    assert Only(a, alloc, r) == head + Only(a[1..], alloc, r);
    assert Only(b, alloc, r) == head + Only(b[1..], alloc, r);
    hide Only;
    assert Only(a[1..], alloc, r) == (head + Only(a[1..], alloc, r))[|head|..];
    assert Only(b[1..], alloc, r) == (head + Only(b[1..], alloc, r))[|head|..];
  }

  /** The rule has one answer, and its own answer is the one it gives again. */
  lemma ReorderIsFixed(ts: seq<Task>, once: seq<Task>, twice: seq<Task>, alloc: seq<Alloc>)
    requires IsStableSort(ts, once, alloc) && IsStableSort(once, twice, alloc)
    ensures twice == once
  {
    hide Only, Sorted;
    StableSortUnique(twice, once, alloc);
  }
}
