/** One run of the scheduling capability: its candidates, its one decision, and
    the up to three proposals made of it. */
module Proposing {
  import opened Prelude
  import opened Decimal
  import opened Transitions
  import opened Gate
  import opened Ladder
  import opened LadderTheorems
  import opened Ordering
  import opened ProposeReply

  // -------------------------------------------------------------- candidates

  function TaskIds(ts: seq<Task>): seq<Id> {
    seq(|ts|, i requires 0 <= i < |ts| => ts[i].id)
  }

  predicate Carryable(s: TaskStatus) {
    s == Planned || s == InProgress
  }

  /** Every planned or started task of the previous week. */
  function CarryReflex(prev: seq<Task>): (ids: seq<Id>)
    ensures forall id :: id in ids ==> exists t :: t in prev && t.id == id && Carryable(t.status)
    ensures forall t :: t in prev && Carryable(t.status) ==> t.id in ids
  {
    if prev == [] then []
    else (if Carryable(prev[0].status) then [prev[0].id] else []) + CarryReflex(prev[1..])
  }

  function Without(ids: seq<Id>, excluded: set<Id>): (rest: seq<Id>)
    ensures forall id :: id in rest <==> id in ids && id !in excluded
  {
    if ids == [] then [] else (if ids[0] in excluded then [] else [ids[0]]) + Without(ids[1..], excluded)
  }

  function OpenTasks(ts: seq<Task>): (open: seq<Task>)
    ensures forall t :: t in open <==> t in ts && !TaskTerminal(t.status)
  {
    if ts == [] then [] else (if TaskTerminal(ts[0].status) then [] else [ts[0]]) + OpenTasks(ts[1..])
  }

  /** An allocated direction, open, not the parking one, without a task this week. */
  predicate IsGap(d: Id, alloc: seq<Alloc>, week: seq<Task>, directions: map<Id, DirectionStatus>) {
    && d != TRIAGE && (exists k :: 0 <= k < |alloc| && alloc[k].direction == d && alloc[k].pct > 0)
    && (forall k :: 0 <= k < |week| ==> week[k].direction != Some(d))
    && d in directions && !DirectionTerminal(directions[d])
  }

  predicate Offered(d: Id, alloc: seq<Alloc>, n: nat)
    requires n <= |alloc|
  {
    exists k :: 0 <= k < n && alloc[k].direction == d && alloc[k].pct > 0
  }

  lemma OfferedNext(d: Id, alloc: seq<Alloc>, i: nat)
    requires i < |alloc|
    ensures Offered(d, alloc, i + 1) <==> Offered(d, alloc, i) || (alloc[i].direction == d && alloc[i].pct > 0)
  {
    if alloc[i].direction == d && alloc[i].pct > 0 {
      assert 0 <= i < i + 1;
    }
  }

  /** The gaps, each once and keyed in order. */
  ghost predicate AreGaps(gaps: seq<Keyed>, alloc: seq<Alloc>, week: seq<Task>, directions: map<Id, DirectionStatus>) {
    && gaps == KeyedIds("g", Ids(gaps)) && Distinct(Ids(gaps))
    && forall d :: d in Ids(gaps) <==> IsGap(d, alloc, week, directions)
  }

  method GapDirections(alloc: seq<Alloc>, week: seq<Task>, directions: map<Id, DirectionStatus>) returns (out: seq<Keyed>)
    ensures AreGaps(out, alloc, week, directions)
  {
    var used := set k | 0 <= k < |week| && week[k].direction.Some? :: week[k].direction.value;
    var seen: set<Id> := {};
    var ids: seq<Id> := [];
    out := [];
    for i := 0 to |alloc|
      invariant out == KeyedIds("g", ids) && Distinct(ids)
      invariant forall d :: d in seen <==> Offered(d, alloc, i) && d != TRIAGE && d !in used
      invariant forall d :: d in ids <==> d in seen && d in directions && !DirectionTerminal(directions[d])
    {
      hide Print;
      var a := alloc[i];
      forall d ensures Offered(d, alloc, i + 1) <==> Offered(d, alloc, i) || (a.direction == d && a.pct > 0) {
        OfferedNext(d, alloc, i);
      }
      if a.pct == 0 || a.direction == TRIAGE || a.direction in used || a.direction in seen {
        continue;
      }
      seen := seen + {a.direction};
      if a.direction in directions && !DirectionTerminal(directions[a.direction]) {
        out := out + [Keyed("g" + Print(|out| + 1), a.direction)];
        ids := ids + [a.direction];
      }
    }
    assert Ids(out) == ids;
    forall d ensures d in ids <==> IsGap(d, alloc, week, directions) {
      assert Offered(d, alloc, |alloc|) <==> exists k :: 0 <= k < |alloc| && alloc[k].direction == d && alloc[k].pct > 0;
    }
  }

  // --------------------------------------------------- one decision, split up

  datatype Kind = Carry | Reorder | Create

  datatype Attempt = Attempt(kind: Kind, ops: seq<Op>)

  datatype Dedup = Dedup(excludedCarry: set<Id>, skipReorder: bool, excludedCreate: set<Id>, skipCreate: bool)

  function CarryOver(tasks: seq<Id>, week: Id): seq<Op> {
    seq(|tasks|, i requires 0 <= i < |tasks| => CarryOverTask(tasks[i], week))
  }

  function CarryOps(d: ProposeDecision, week: Id): seq<Op> {
    CarryOver(d.carry, week)
  }

  function ReorderOps(d: ProposeDecision, current: seq<Id>, week: Id): seq<Op> {
    if d.order == current then [] else [ReorderTasks(week, d.order)]
  }

  function CreateOps(d: ProposeDecision, week: Id): seq<Op> {
    if d.newTasks == [] then [] else [CreateTasks(week, d.newTasks)]
  }

  /** The sub-proposals actually attempted, in order. */
  function Attempts(d: ProposeDecision, current: seq<Id>, week: Id, dedup: Dedup): seq<Attempt> {
    (if CarryOps(d, week) == [] then [] else [Attempt(Carry, CarryOps(d, week))])
    + (if dedup.skipReorder || ReorderOps(d, current, week) == [] then [] else [Attempt(Reorder, ReorderOps(d, current, week))])
    + (if dedup.skipCreate || CreateOps(d, week) == [] then [] else [Attempt(Create, CreateOps(d, week))])
  }

  // ------------------------------------------------------------------ the sink

  /** What the store makes of a submission: it is taken, the dry run refuses it,
      or the write itself fails. */
  datatype Fate = Taken | Refused | StoreFailed

  function FateKind(f: Fate): Option<string> {
    match f
    case Taken => None
    case Refused => Some("rejected_by_precheck")
    case StoreFailed => Some("submit_store_error")
  }

  /** The row of a produced record once its submission is decided. */
  function Settled(rec: Record, fate: Fate): Record {
    if fate.Taken? then rec else rec.(ok := false, errorKind := FateKind(fate))
  }

  function RowOf(rec: Record, first: bool, fate: Fate): Record {
    Settled(if first then rec else rec.(prompt := None, completion := None), fate)
  }

  /** One row per attempt; only the first keeps the reply's usage. */
  function AttemptRows(attempts: seq<Attempt>, rec: Record, fate: Kind -> Fate, first: bool): seq<Record> {
    if attempts == [] then []
    else [RowOf(rec, first, fate(attempts[0].kind))] + AttemptRows(attempts[1..], rec, fate, false)
  }

  function Accepted(attempts: seq<Attempt>, fate: Kind -> Fate): seq<Attempt> {
    if attempts == [] then []
    else (if fate(attempts[0].kind).Taken? then [attempts[0]] else []) + Accepted(attempts[1..], fate)
  }

  lemma UsageCons(r: Record, rs: seq<Record>)
    ensures UsageOf([r] + rs) == Plus(Usage(Count(r.prompt), Count(r.completion)), UsageOf(rs))
  {
    assert ([r] + rs)[1..] == rs;
  }

  lemma UsageNothing(b: seq<Record>)
    ensures UsageOf(b) == Plus(UsageOf([]), UsageOf(b))
  {
  }

  lemma PlusRegroups(a: Usage, b: Usage, c: Usage)
    ensures Plus(a, Plus(b, c)) == Plus(Plus(a, b), c)
  {
  }

  lemma {:induction false} UsageConcat(a: seq<Record>, b: seq<Record>)
    ensures UsageOf(a + b) == Plus(UsageOf(a), UsageOf(b))
  {
    hide *;
    if a == [] {
      assert a + b == b;
      UsageNothing(b);
    } else {
      var r, rest := a[0], a[1..];
      UsageConcat(rest, b);
      UsageCons(r, rest + b);
      UsageCons(r, rest);
      assert a + b == [r] + (rest + b) && a == [r] + rest;
      PlusRegroups(Usage(Count(r.prompt), Count(r.completion)), UsageOf(rest), UsageOf(b));
    }
  }

  lemma UsageOfNone()
    ensures UsageOf([]) == Usage(0, 0)
  {
  }

  lemma PlusNone(u: Usage)
    ensures Plus(u, Usage(0, 0)) == u && Plus(Usage(0, 0), u) == u
  {
  }

  lemma UsageOfOne(r: Record)
    ensures UsageOf([r]) == Usage(Count(r.prompt), Count(r.completion))
  {
    hide *;
    UsageCons(r, []);
    UsageOfNone();
    PlusNone(Usage(Count(r.prompt), Count(r.completion)));
    assert [r] + [] == [r];
  }

  lemma RowCounts(rec: Record, first: bool, fate: Fate)
    ensures var row := RowOf(rec, first, fate);
            && Count(row.prompt) == (if first then Count(rec.prompt) else 0)
            && Count(row.completion) == (if first then Count(rec.completion) else 0)
  {
  }

  lemma AttemptRowsStep(attempts: seq<Attempt>, rec: Record, fate: Kind -> Fate, first: bool)
    ensures attempts == [] ==> AttemptRows(attempts, rec, fate, first) == []
    ensures attempts != [] ==>
              AttemptRows(attempts, rec, fate, first) ==
                [RowOf(rec, first, fate(attempts[0].kind))] + AttemptRows(attempts[1..], rec, fate, false)
  {
  }

  /** However many sub-proposals are attempted, and however they fare, the usage of
      the one reply behind them is counted once. */
  lemma {:induction false} AttemptUsage(attempts: seq<Attempt>, rec: Record, fate: Kind -> Fate, first: bool)
    ensures UsageOf(AttemptRows(attempts, rec, fate, first)) ==
              if first && attempts != [] then UsageOf([rec]) else Usage(0, 0)
  {
    hide *;
    AttemptRowsStep(attempts, rec, fate, first);
    if attempts == [] {
      UsageOfNone();
    } else {
      var row, rest := RowOf(rec, first, fate(attempts[0].kind)), AttemptRows(attempts[1..], rec, fate, false);
      RowCounts(rec, first, fate(attempts[0].kind));
      AttemptUsage(attempts[1..], rec, fate, false);
      UsageCons(row, rest);
      UsageOfOne(rec);
      PlusNone(Usage(Count(row.prompt), Count(row.completion)));
    }
  }

  datatype ItemResult = Proposed | NothingToDo | Left | Rejected | Cut | Covered

  class Sink {
    var rows: seq<Record>
    var proposals: seq<Attempt>

    constructor ()
      ensures rows == [] && proposals == []
    {
      rows := [];
      proposals := [];
    }

    /** The proposal and its row go in together; otherwise only a row goes in, which
        says whether the dry run refused it or the store failed. */
    method SubmitOne(attempt: Attempt, rec: Record, first: bool, fate: Kind -> Fate) returns (r: ItemResult)
      modifies this
      ensures rows == old(rows) + [RowOf(rec, first, fate(attempt.kind))]
      ensures proposals == old(proposals) + (if fate(attempt.kind).Taken? then [attempt] else [])
      ensures r == if fate(attempt.kind).Taken? then Proposed else Rejected
    {
      var row := rec;
      if !first {
        row := row.(prompt := None, completion := None);
      }
      match fate(attempt.kind) {
        case Taken =>
          proposals := proposals + [attempt];
          rows := rows + [row];
          return Proposed;
        case Refused => row := row.(ok := false, errorKind := Some("rejected_by_precheck"));
        case StoreFailed => row := row.(ok := false, errorKind := Some("submit_store_error"));
      }
      rows := rows + [row];
      return Rejected;
    }

    method RecordCall(recs: seq<Record>)
      modifies this`rows
      ensures rows == old(rows) + recs
    {
      rows := rows + recs;
    }
  }

  predicate Has(attempts: seq<Attempt>, kind: Kind) {
    exists k :: 0 <= k < |attempts| && attempts[k].kind == kind
  }

  /** What one of the three kinds reports. */
  function SlotOf(attempts: seq<Attempt>, kind: Kind, covered: bool, fate: Kind -> Fate): ItemResult {
    if covered then Covered
    else if !Has(attempts, kind) then NothingToDo
    else if fate(kind).Taken? then Proposed
    else Rejected
  }

  function Slots(attempts: seq<Attempt>, dedup: Dedup, fate: Kind -> Fate): seq<ItemResult> {
    [SlotOf(attempts, Carry, false, fate), SlotOf(attempts, Reorder, dedup.skipReorder, fate),
     SlotOf(attempts, Create, dedup.skipCreate, fate)]
  }

  /** The last part of `propose_decide`: what becomes of a decision. */
  method Split(sink: Sink, d: ProposeDecision, rec: Record, current: seq<Id>, week: Id, dedup: Dedup, fate: Kind -> Fate)
    returns (results: seq<ItemResult>)
    modifies sink
    ensures var attempts := Attempts(d, current, week, dedup);
            && sink.proposals == old(sink.proposals) + Accepted(attempts, fate)
            && sink.rows == old(sink.rows) + (if attempts == [] then [rec] else AttemptRows(attempts, rec, fate, true))
    ensures results == Slots(Attempts(d, current, week, dedup), dedup, fate)
  {
    var carryOps, reorderOps, createOps := CarryOps(d, week), ReorderOps(d, current, week), CreateOps(d, week);
    var carry, reorder, create := carryOps != [], !dedup.skipReorder && reorderOps != [], !dedup.skipCreate && createOps != [];
    SplitRows(d, rec, current, week, dedup, fate);
    hide AttemptRows, Accepted, RowOf, CarryOps, ReorderOps, CreateOps, Attempts, Has;
    ghost var rows, proposals := sink.rows, sink.proposals;
    ghost var r1, r2 := OneRow(carry, rec, true, fate(Carry)), OneRow(reorder, rec, !carry, fate(Reorder));
    ghost var r3 := OneRow(create, rec, !carry && !reorder, fate(Create));
    ghost var a1, a2 := OneAttempt(carry, Attempt(Carry, carryOps), fate(Carry)), OneAttempt(reorder, Attempt(Reorder, reorderOps), fate(Reorder));
    ghost var a3 := OneAttempt(create, Attempt(Create, createOps), fate(Create));
    var carried, reordered, created := NothingToDo, NothingToDo, NothingToDo;
    if carry {
      carried := sink.SubmitOne(Attempt(Carry, carryOps), rec, true, fate);
    }
    assert sink.rows == rows + r1 && sink.proposals == proposals + a1;
    if dedup.skipReorder {
      reordered := Covered;
    } else if reorder {
      reordered := sink.SubmitOne(Attempt(Reorder, reorderOps), rec, !carry, fate);
    }
    assert sink.rows == rows + r1 + r2 && sink.proposals == proposals + a1 + a2;
    if dedup.skipCreate {
      created := Covered;
    } else if create {
      created := sink.SubmitOne(Attempt(Create, createOps), rec, !carry && !reorder, fate);
    }
    assert sink.rows == rows + r1 + r2 + r3 && sink.proposals == proposals + a1 + a2 + a3;
    Regroup(rows, r1, r2, r3);
    Regroup(proposals, a1, a2, a3);
    if !carry && !reorder && !create {
      sink.RecordCall([rec]);
    }
    return [carried, reordered, created];
  }

  lemma Regroup<T>(a: seq<T>, b: seq<T>, c: seq<T>, d: seq<T>)
    ensures a + b + c + d == a + (b + c + d)
  {
  }

  function OneRow(on: bool, rec: Record, first: bool, fate: Fate): seq<Record> {
    if on then [RowOf(rec, first, fate)] else []
  }

  function OneAttempt(on: bool, a: Attempt, fate: Fate): seq<Attempt> {
    if on && fate.Taken? then [a] else []
  }

  /** The three slots, written out. */
  lemma SplitRows(d: ProposeDecision, rec: Record, current: seq<Id>, week: Id, dedup: Dedup, fate: Kind -> Fate)
    ensures var attempts := Attempts(d, current, week, dedup);
            var carryOps, reorderOps, createOps := CarryOps(d, week), ReorderOps(d, current, week), CreateOps(d, week);
            var carry, reorder, create := carryOps != [], !dedup.skipReorder && reorderOps != [], !dedup.skipCreate && createOps != [];
            && AttemptRows(attempts, rec, fate, true) ==
                 OneRow(carry, rec, true, fate(Carry)) + OneRow(reorder, rec, !carry, fate(Reorder))
                 + OneRow(create, rec, !carry && !reorder, fate(Create))
            && Accepted(attempts, fate) ==
                 OneAttempt(carry, Attempt(Carry, carryOps), fate(Carry))
                 + OneAttempt(reorder, Attempt(Reorder, reorderOps), fate(Reorder))
                 + OneAttempt(create, Attempt(Create, createOps), fate(Create))
            && (attempts == [] <==> !carry && !reorder && !create)
            && Has(attempts, Carry) == carry && Has(attempts, Reorder) == reorder && Has(attempts, Create) == create
  {
    hide CarryOps, ReorderOps, CreateOps, RowOf;
    var a := if CarryOps(d, week) != [] then [Attempt(Carry, CarryOps(d, week))] else [];
    var b := if !dedup.skipReorder && ReorderOps(d, current, week) != [] then [Attempt(Reorder, ReorderOps(d, current, week))] else [];
    var c := if !dedup.skipCreate && CreateOps(d, week) != [] then [Attempt(Create, CreateOps(d, week))] else [];
    assert Attempts(d, current, week, dedup) == a + b + c;
    HasSlots(a, b, c);
    RowsConcat(a + b, c, rec, fate, true);
    RowsConcat(a, b, rec, fate, true);
    RowsOfOne(a, rec, fate, true);
    RowsOfOne(b, rec, fate, a == []);
    RowsOfOne(c, rec, fate, a + b == []);
  }

  lemma HasSlots(a: seq<Attempt>, b: seq<Attempt>, c: seq<Attempt>)
    requires |a| <= 1 && |b| <= 1 && |c| <= 1
    requires (a != [] ==> a[0].kind == Carry) && (b != [] ==> b[0].kind == Reorder) && (c != [] ==> c[0].kind == Create)
    ensures Has(a + b + c, Carry) == (a != []) && Has(a + b + c, Reorder) == (b != []) && Has(a + b + c, Create) == (c != [])
  {
    var all := a + b + c;
    if a != [] { assert all[0] == a[0]; }
    if b != [] { assert all[|a|] == b[0]; }
    if c != [] { assert all[|a| + |b|] == c[0]; }
  }

  lemma RowsOfOne(a: seq<Attempt>, rec: Record, fate: Kind -> Fate, first: bool)
    requires |a| <= 1
    ensures AttemptRows(a, rec, fate, first) == if a == [] then [] else [RowOf(rec, first, fate(a[0].kind))]
    ensures Accepted(a, fate) == if a != [] && fate(a[0].kind).Taken? then a else []
  {
    if a != [] {
      assert a[1..] == [];
      assert AttemptRows(a, rec, fate, first) == [RowOf(rec, first, fate(a[0].kind))] + AttemptRows([], rec, fate, false);
      assert Accepted(a, fate) == (if fate(a[0].kind).Taken? then [a[0]] else []) + Accepted([], fate);
    }
  }

  lemma {:induction false} RowsConcat(a: seq<Attempt>, b: seq<Attempt>, rec: Record, fate: Kind -> Fate, first: bool)
    ensures AttemptRows(a + b, rec, fate, first) == AttemptRows(a, rec, fate, first) + AttemptRows(b, rec, fate, first && a == [])
    ensures Accepted(a + b, fate) == Accepted(a, fate) + Accepted(b, fate)
  {
    if a == [] {
      assert a + b == b;
    } else {
      assert (a + b)[1..] == a[1..] + b;
      RowsConcat(a[1..], b, rec, fate, false);
    }
  }

  // ------------------------------------------------- what the gate will accept

  /** A new task has a readable title of its own and a direction that was on offer. */
  predicate NewTaskOk(t: NewTask, g: seq<Keyed>) {
    && t.title != "" && |t.title| <= MAX_NEW_TASK_TITLE_CHARS && IsTidy(t.title)
    && t.directionId.Some? && t.directionId.value in Ids(g)
  }

  /** What every decision is, whoever made it. */
  predicate DecisionOk(d: ProposeDecision, carryable: seq<Id>, current: seq<Id>, g: seq<Keyed>) {
    && Distinct(d.carry) && (forall id :: id in d.carry ==> id in carryable)
    && multiset(d.order) == multiset(current)
    && |d.newTasks| <= MAX_NEW_TASKS && (forall i :: 0 <= i < |d.newTasks| ==> NewTaskOk(d.newTasks[i], g))
  }

  lemma DraftedIsOk(ds: seq<NewTaskDraft>, g: seq<Keyed>, i: nat)
    requires (forall k :: 0 <= k < |ds| ==> DraftOk(ds[k], g)) && i < |ds|
    ensures NewTaskOk(Drafted(ds, g)[i], g)
  {
    hide CleanAiText, IsTidy, Lookup;
    assert DraftOk(ds[i], g);
    CleanIsTidy(ds[i].title);
    var k := LookupWhere(g, ds[i].direction);
    assert Ids(g)[k] == g[k].id;
  }

  lemma ParsedIsOk(m: ModelPropose, carryable: seq<Id>, current: seq<Id>, g: seq<Keyed>)
    requires Distinct(carryable) && Acceptable(m, KeyedIds("p", carryable), KeyedIds("w", current), g)
    ensures DecisionOk(Decided(m, KeyedIds("p", carryable), KeyedIds("w", current), g), carryable, current, g)
  {
    forall i | 0 <= i < |m.newTasks| ensures NewTaskOk(Drafted(m.newTasks, g)[i], g) {
      DraftedIsOk(m.newTasks, g, i);
    }
    hide Distinct, AllKnown, Lookup, LeftOut, DraftOk, Drafted, NewTaskOk;
    OrderIsComplete(m, KeyedIds("p", carryable), current, g);
    assert Ids(KeyedIds("p", carryable)) == carryable;
    ChosenIsDistinct(m.carry, KeyedIds("p", carryable));
  }

  lemma PermutationIsDistinct(a: seq<Id>, b: seq<Id>)
    requires multiset(a) == multiset(b) && Distinct(b)
    ensures Distinct(a)
  {
    forall i, j | 0 <= i < j < |a| ensures a[i] != a[j] {
      if a[i] == a[j] {
        assert a == a[..i] + [a[i]] + a[i + 1..j] + [a[j]] + a[j + 1..];
        assert multiset(a)[a[i]] >= 2;
        DistinctCounts(b, a[i]);
      }
    }
  }

  lemma {:induction false} DistinctCounts(b: seq<Id>, x: Id)
    requires Distinct(b)
    ensures multiset(b)[x] <= 1
  {
    if b != [] {
      assert b == [b[0]] + b[1..];
      DistinctCounts(b[1..], x);
      if x == b[0] {
        assert x !in b[1..];
      }
    }
  }

  /** A store snapshot in which the run's reads are still true. */
  predicate StillTrue(s: Snapshot, week: Id, carryable: seq<Id>) {
    && week in s.weeks && WeekOpen(s.weeks[week])
    && (forall id :: id in carryable ==> id in s.status && Carryable(s.status[id]))
  }

  lemma {:induction false} CarryPasses(carry: seq<Id>, week: Id, s: Snapshot, t: Terms)
    requires Distinct(carry) && StillTrue(s, week, carry)
    ensures InTurn(CarryOver(carry, week), s, t).Ok?
    decreases |carry|
  {
    if carry != [] {
      var ops, rest := CarryOver(carry, week), carry[1..];
      var s' := Effect(ops[0], s, t);
      forall id | id in rest ensures id in s'.status && Carryable(s'.status[id]) && id in carry {
        assert id != carry[0];
      }
      CarryPasses(rest, week, s', t);
      assert ops[1..] == CarryOver(rest, week);
    }
  }

  lemma OneOpPasses(op: Op, s: Snapshot, t: Terms)
    requires Check(op, s, t).Ok?
    ensures Validated([op], s, t).Ok?
  {
    assert [op][1..] == [];
    assert InTurn([], Effect(op, s, t), t).Ok?;
    hide Check, Effect;
  }

  /** Generator soundness: whatever the model replied, and for the rule too, every
      batch of the run passes the gate on the snapshot it was computed from. */
  lemma AttemptsPass(d: ProposeDecision, carryable: seq<Id>, current: seq<Id>, g: seq<Keyed>, week: Id, dedup: Dedup,
                     s: Snapshot, t: Terms, k: nat)
    requires DecisionOk(d, carryable, current, g) && Distinct(current) && StillTrue(s, week, carryable)
    requires k < |Attempts(d, current, week, dedup)|
    ensures Validated(Attempts(d, current, week, dedup)[k].ops, s, t).Ok?
  {
    var a := Attempts(d, current, week, dedup)[k];
    match a.kind
    case Carry =>
      assert a.ops == CarryOps(d, week);
      CarryPasses(d.carry, week, s, t);
    case Reorder =>
      PermutationIsDistinct(d.order, current);
      DupesIff("reorder_tasks", {}, d.order);
      ReorderIsSome(d.order, current);
      assert a.ops == [ReorderTasks(week, d.order)];
      OneOpPasses(a.ops[0], s, t);
    case Create =>
      assert a.ops == [CreateTasks(week, d.newTasks)];
      OneOpPasses(a.ops[0], s, t);
  }

  lemma ReorderIsSome(order: seq<Id>, current: seq<Id>)
    requires multiset(order) == multiset(current) && order != current
    ensures order != []
  {
    assert |order| == |multiset(order)| && |current| == |multiset(current)|;
  }

  // ------------------------------------------------------------------ the run

  /** What the world does at one step of the run's single item. */
  datatype Turn = Turn(at: int, answer: Result<Reply, Failure>, switchOn: Option<bool>, reply: Option<ModelPropose>)

  /** A step as the ladder sees it: the clock, the answer and the switch as the
      world has them, the parser's say on this very reply, and the rule's. */
  function ActOf(turn: Turn, p: seq<Keyed>, w: seq<Keyed>, g: seq<Keyed>, rule: ProposeDecision): Act<ProposeDecision> {
    Act(turn.at, turn.answer, turn.switchOn, ParsedReply(turn.reply, p, w, g), Some(rule))
  }

  function ActsOf(turns: seq<Turn>, carryable: seq<Id>, current: seq<Id>, g: seq<Keyed>, rule: ProposeDecision)
    : (acts: seq<Act<ProposeDecision>>)
    ensures |acts| == |turns|
  {
    seq(|turns|, i requires 0 <= i < |turns| => ActOf(turns[i], KeyedIds("p", carryable), KeyedIds("w", current), g, rule))
  }

  lemma ActsAre(acts: seq<Act<ProposeDecision>>, turns: seq<Turn>, carryable: seq<Id>, current: seq<Id>, g: seq<Keyed>,
                rule: ProposeDecision)
    requires |acts| == |turns|
    requires forall k :: 0 <= k < |acts| ==>
               acts[k] == ActOf(turns[k], KeyedIds("p", carryable), KeyedIds("w", current), g, rule)
    ensures acts == ActsOf(turns, carryable, current, g, rule)
  {
    hide ActOf, KeyedIds;
  }

  lemma ActIs(turn: Turn, p: seq<Keyed>, w: seq<Keyed>, g: seq<Keyed>, rule: ProposeDecision)
    ensures ActOf(turn, p, w, g, rule) == Act(turn.at, turn.answer, turn.switchOn, ParsedReply(turn.reply, p, w, g), Some(rule))
  {
    hide ParsedReply;
  }

  method ReadTurns(turns: seq<Turn>, carryable: seq<Id>, current: seq<Id>, g: seq<Keyed>, rule: ProposeDecision)
    returns (acts: seq<Act<ProposeDecision>>)
    ensures acts == ActsOf(turns, carryable, current, g, rule)
  {
    hide *;
    acts := [];
    var p, w := KeyedIds("p", carryable), KeyedIds("w", current);
    for i := 0 to |turns|
      invariant |acts| == i && forall k :: 0 <= k < i ==> acts[k] == ActOf(turns[k], p, w, g, rule)
    {
      var parsed := ParseProposeReply(turns[i].reply, p, w, g);
      ActIs(turns[i], p, w, g, rule);
      acts := acts + [Act(turns[i].at, turns[i].answer, turns[i].switchOn, parsed, Some(rule))];
    }
    ActsAre(acts, turns, carryable, current, g, rule);
  }

  /** Everything a run reads before it decides. */
  datatype Input = Input(week: Id, weekTasks: seq<Task>, prevTasks: seq<Task>, alloc: seq<Alloc>, directions: map<Id, DirectionStatus>)

  /** The previous week's tasks on offer to be carried over. */
  function CarryableIds(input: Input, dedup: Dedup): seq<Id> {
    Without(CarryReflex(input.prevTasks), dedup.excludedCarry)
  }

  function CurrentIds(input: Input): seq<Id> {
    TaskIds(OpenTasks(input.weekTasks))
  }

  predicate UniqueIds(ts: seq<Task>) {
    Distinct(TaskIds(ts))
  }

  lemma {:induction false} WithoutDistinct(ids: seq<Id>, excluded: set<Id>)
    requires Distinct(ids)
    ensures Distinct(Without(ids, excluded))
  {
    if ids != [] {
      WithoutDistinct(ids[1..], excluded);
      assert ids[0] !in ids[1..];
    }
  }

  lemma {:induction false} OpenTasksDistinct(ts: seq<Task>)
    requires UniqueIds(ts)
    ensures UniqueIds(OpenTasks(ts))
  {
    if ts != [] {
      hide TaskTerminal;
      var t, rest, open := ts[0], ts[1..], OpenTasks(ts[1..]);
      UniqueUncons(ts);
      OpenTasksDistinct(rest);
      assert forall u :: u in open ==> u in rest;
      UniqueCons(t, open);
      hide UniqueIds, TaskIds;
      assert OpenTasks(ts) == (if TaskTerminal(t.status) then [] else [t]) + open;
      assert [] + open == open;
    }
  }

  lemma UniqueUncons(ts: seq<Task>)
    requires UniqueIds(ts) && ts != []
    ensures UniqueIds(ts[1..]) && forall u :: u in ts[1..] ==> u.id != ts[0].id
  {
    var rest := ts[1..];
    assert forall i :: 0 <= i < |rest| ==> TaskIds(rest)[i] == TaskIds(ts)[i + 1];
    forall u | u in rest ensures u.id != ts[0].id {
      var k :| 0 <= k < |rest| && rest[k] == u;
      assert TaskIds(ts)[k + 1] == u.id && TaskIds(ts)[0] == ts[0].id;
    }
  }

  lemma {:induction false} CarryReflexDistinct(prev: seq<Task>)
    requires UniqueIds(prev)
    ensures Distinct(CarryReflex(prev))
  {
    if prev != [] {
      var t, ids := prev[0], CarryReflex(prev[1..]);
      UniqueUncons(prev);
      CarryReflexDistinct(prev[1..]);
      hide UniqueIds;
      assert t.id !in ids;
      assert CarryReflex(prev) == (if Carryable(t.status) then [t.id] else []) + ids;
    }
  }

  lemma UniqueCons(t: Task, ts: seq<Task>)
    requires UniqueIds(ts) && forall u :: u in ts ==> u.id != t.id
    ensures UniqueIds([t] + ts)
  {
    var all := TaskIds([t] + ts);
    assert all == [t.id] + TaskIds(ts);
    forall i | 0 <= i < |ts| ensures TaskIds(ts)[i] != t.id {
      assert ts[i] in ts;
    }
  }

  lemma IdsConcat(a: seq<Task>, b: seq<Task>)
    ensures TaskIds(a + b) == TaskIds(a) + TaskIds(b)
  {
  }

  lemma TakeOut(b: seq<Task>, k: nat)
    requires k < |b|
    ensures multiset(b) == multiset(b[..k] + b[k + 1..]) + multiset{b[k]}
    ensures multiset(TaskIds(b)) == multiset(TaskIds(b[..k] + b[k + 1..])) + multiset{b[k].id}
  {
    var front, t, back := b[..k], b[k], b[k + 1..];
    assert b == front + ([t] + back);
    assert multiset(b) == multiset(front) + (multiset{t} + multiset(back));
    assert multiset(front + back) == multiset(front) + multiset(back);
    IdsConcat(front, [t] + back);
    IdsConcat([t], back);
    IdsConcat(front, back);
    assert TaskIds([t]) == [t.id];
    hide TaskIds;
    var f, k' := TaskIds(front), TaskIds(back);
    assert multiset(f + ([t.id] + k')) == multiset(f) + (multiset{t.id} + multiset(k'));
    assert multiset(f + k') == multiset(f) + multiset(k');
  }

  lemma SameLength(a: seq<Task>, b: seq<Task>)
    requires multiset(a) == multiset(b)
    ensures |a| == |b| && forall t :: t in a ==> t in b
  {
    assert |a| == |multiset(a)| && |b| == |multiset(b)|;
    forall t | t in a ensures t in b {
      assert t in multiset(a);
    }
  }

  lemma Find(t: Task, ts: seq<Task>) returns (k: nat)
    requires t in ts
    ensures k < |ts| && ts[k] == t
  {
    k :| 0 <= k < |ts| && ts[k] == t;
  }

  lemma Cancel(x: multiset<Task>, y: multiset<Task>, z: multiset<Task>)
    requires x + z == y + z
    ensures x == y
  {
    assert x == (x + z) - z && y == (y + z) - z;
  }

  lemma RestIsPermutation(a: seq<Task>, b: seq<Task>, k: nat)
    requires multiset(a) == multiset(b) && a != [] && k < |b| && b[k] == a[0]
    ensures multiset(a[1..]) == multiset(b[..k] + b[k + 1..])
  {
    hide *;
    TakeOut(a, 0);
    TakeOut(b, k);
    assert a[..0] + a[1..] == a[1..];
    Cancel(multiset(a[1..]), multiset(b[..k] + b[k + 1..]), multiset{a[0]});
  }

  lemma IdsOfRest(a: seq<Task>, b: seq<Task>, k: nat)
    requires a != [] && k < |b| && b[k] == a[0]
    requires multiset(TaskIds(a[1..])) == multiset(TaskIds(b[..k] + b[k + 1..]))
    ensures multiset(TaskIds(a)) == multiset(TaskIds(b))
  {
    hide *;
    TakeOut(a, 0);
    TakeOut(b, k);
    assert a[..0] + a[1..] == a[1..];
  }

  lemma {:induction false} IdsOfPermutation(a: seq<Task>, b: seq<Task>)
    requires multiset(a) == multiset(b)
    ensures multiset(TaskIds(a)) == multiset(TaskIds(b))
    decreases |a|
  {
    hide *;
    SameLength(a, b);
    if a == [] {
      assert b == a;
    } else {
      var k := Find(a[0], b);
      RestIsPermutation(a, b, k);
      IdsOfPermutation(a[1..], b[..k] + b[k + 1..]);
      IdsOfRest(a, b, k);
    }
  }

  const RULE_REASON: string :=
    "every planned/in_progress task from last week; tasks re-ordered by status and Direction quota"

  /** The rule's own decision: carry everything carryable, order by the rule, start nothing. */
  ghost predicate IsRule(d: ProposeDecision, carryable: seq<Id>, open: seq<Task>, alloc: seq<Alloc>) {
    && d.carry == carryable && d.newTasks == [] && d.reason == RULE_REASON
    && exists sorted :: IsStableSort(open, sorted, alloc) && d.order == TaskIds(sorted)
  }

  lemma RuleIsOk(d: ProposeDecision, carryable: seq<Id>, open: seq<Task>, g: seq<Keyed>, alloc: seq<Alloc>)
    requires Distinct(carryable) && IsRule(d, carryable, open, alloc)
    ensures DecisionOk(d, carryable, TaskIds(open), g)
  {
    var sorted :| IsStableSort(open, sorted, alloc) && d.order == TaskIds(sorted);
    IdsOfPermutation(sorted, open);
  }

  method RuleDecision(carryable: seq<Id>, open: seq<Task>, alloc: seq<Alloc>) returns (d: ProposeDecision)
    ensures IsRule(d, carryable, open, alloc)
  {
    hide IsStableSort;
    var sorted := ReorderReflex(open, alloc);
    return ProposeDecision(carryable, TaskIds(sorted), [], RULE_REASON);
  }

  ghost predicate FromDecision(added: seq<Attempt>, input: Input, dedup: Dedup, g: seq<Keyed>, fate: Kind -> Fate) {
    added == [] || exists d :: DecisionOk(d, CarryableIds(input, dedup), CurrentIds(input), g)
                               && added == Accepted(Attempts(d, CurrentIds(input), input.week, dedup), fate)
  }

  /** Whatever the parser or the rule hands the ladder is a decision of the run. */
  ghost predicate ActsOk(acts: seq<Act<ProposeDecision>>, carryable: seq<Id>, current: seq<Id>, g: seq<Keyed>) {
    forall k :: 0 <= k < |acts| ==>
      && (acts[k].parsed.Ok? ==> DecisionOk(acts[k].parsed.value, carryable, current, g))
      && acts[k].rule.Some? && DecisionOk(acts[k].rule.value, carryable, current, g)
  }

  lemma TurnsAreOk(turns: seq<Turn>, carryable: seq<Id>, current: seq<Id>, g: seq<Keyed>, rule: ProposeDecision)
    requires Distinct(carryable) && DecisionOk(rule, carryable, current, g)
    ensures ActsOk(ActsOf(turns, carryable, current, g, rule), carryable, current, g)
  {
    hide DecisionOk, Acceptable, Decided, KeyedIds, Distinct;
    var acts := ActsOf(turns, carryable, current, g, rule);
    forall k | 0 <= k < |acts| && acts[k].parsed.Ok? ensures DecisionOk(acts[k].parsed.value, carryable, current, g) {
      ParsedIsOk(turns[k].reply.value, carryable, current, g);
    }
  }

  lemma CarryableDistinct(input: Input, dedup: Dedup)
    requires UniqueIds(input.prevTasks)
    ensures Distinct(CarryableIds(input, dedup))
  {
    CarryReflexDistinct(input.prevTasks);
    WithoutDistinct(CarryReflex(input.prevTasks), dedup.excludedCarry);
  }

  /** The rule of a run, and what the ladder is given at each of its steps. */
  ghost predicate IsRuleOf(rule: ProposeDecision, input: Input, dedup: Dedup) {
    IsRule(rule, CarryableIds(input, dedup), OpenTasks(input.weekTasks), input.alloc)
  }

  function RunActs(turns: seq<Turn>, input: Input, dedup: Dedup, g: seq<Keyed>, rule: ProposeDecision)
    : (acts: seq<Act<ProposeDecision>>)
    ensures |acts| == |turns|
  {
    ActsOf(turns, CarryableIds(input, dedup), CurrentIds(input), g, rule)
  }

  method Prepare(input: Input, dedup: Dedup, g: seq<Keyed>, turns: seq<Turn>)
    returns (acts: seq<Act<ProposeDecision>>, rule: ProposeDecision)
    ensures IsRuleOf(rule, input, dedup) && acts == RunActs(turns, input, dedup, g, rule)
  {
    hide IsRule;
    var carryable, open := CarryableIds(input, dedup), OpenTasks(input.weekTasks);
    rule := RuleDecision(carryable, open, input.alloc);
    acts := ReadTurns(turns, carryable, TaskIds(open), g, rule);
  }

  lemma RunActsOk(turns: seq<Turn>, input: Input, dedup: Dedup, g: seq<Keyed>, rule: ProposeDecision)
    requires UniqueIds(input.prevTasks) && IsRuleOf(rule, input, dedup)
    ensures ActsOk(RunActs(turns, input, dedup, g, rule), CarryableIds(input, dedup), CurrentIds(input), g)
  {
    hide IsRule, CarryableIds;
    CarryableDistinct(input, dedup);
    RuleIsOk(rule, CarryableIds(input, dedup), OpenTasks(input.weekTasks), g, input.alloc);
    TurnsAreOk(turns, CarryableIds(input, dedup), CurrentIds(input), g, rule);
  }

  lemma ProducedOk(v: View, steps: seq<LadderStep>, acts: seq<Act<ProposeDecision>>, port: bool, input: Input, dedup: Dedup, g: seq<Keyed>)
    requires |acts| == |steps| && ActsOk(acts, CarryableIds(input, dedup), CurrentIds(input), g)
    ensures var out := OutcomeOf(Item(v, steps, acts, port));
            out.Produced? ==> DecisionOk(out.value, CarryableIds(input, dedup), CurrentIds(input), g)
  {
    hide Item, DecisionOk, CarryableIds, CurrentIds, OutcomeOf;
    if OutcomeOf(Item(v, steps, acts, port)).Produced? {
      var k := ProducedHere(v, steps, acts, port);
    }
  }

  /** One decision down the ladder, and what is made of it. Whatever subset of the
      sub-proposals is attempted, skipped or refused, the rows the sink got carry
      the usage of the replies received, each counted once. */
  method ProposeDecide(st: RunState, sink: Sink, input: Input, dedup: Dedup, g: seq<Keyed>, steps: seq<LadderStep>,
                       turns: seq<Turn>, port: bool, fate: Kind -> Fate)
    returns (results: seq<ItemResult>, rule: ProposeDecision, ghost done: Progress<ProposeDecision>)
    requires UniqueIds(input.prevTasks)
    requires |turns| == |steps| && forall k :: 0 <= k < |steps| ==> steps[k] != Model(Reflex)
    modifies st, sink
    ensures IsRuleOf(rule, input, dedup)
    ensures done == Item(old(st.Now()), steps, RunActs(turns, input, dedup, g, rule), port) && st.Now() == done.view
    ensures UsageOf(sink.rows) == Plus(UsageOf(old(sink.rows)), Received(done.trace))
    ensures sink.rows == old(sink.rows) + Unproductive(Records(done.trace)) + MoreRows(OutcomeOf(done), CurrentIds(input), input.week, dedup, fate)
    ensures sink.proposals == old(sink.proposals) + MoreProposals(OutcomeOf(done), CurrentIds(input), input.week, dedup, fate)
    ensures results == ResultsOf(OutcomeOf(done), CurrentIds(input), input.week, dedup, fate)
    ensures FromDecision(sink.proposals[|old(sink.proposals)|..], input, dedup, g, fate)
  {
    hide *;
    var acts;
    acts, rule := Prepare(input, dedup, g, turns);
    RunActsOk(turns, input, dedup, g, rule);
    var current := CurrentIds(input);
    ghost var v, rows := st.Now(), sink.rows;
    var out, written, calls;
    out, written, calls, done := st.RunItem(steps, acts, port);
    results := Conclude(sink, out, written, current, input.week, dedup, fate);
    ItemRows(v, steps, acts, port);
    ProducedOk(v, steps, acts, port, input, dedup, g);
    MoreUsage(out, current, input.week, dedup, fate);
    ghost var more := MoreRows(out, current, input.week, dedup, fate);
    UsageConcat(rows + written, more);
    UsageConcat(rows, written);
    PlusRegroups(UsageOf(rows), UsageOf(written), UsageOf(more));
    PlusNone(UsageOf(written));
    Provenance(out, input, dedup, g, fate);
  }

  /** The rows and the proposals an outcome leads to, beyond what the ladder wrote. */
  function MoreRows(out: Outcome<ProposeDecision>, current: seq<Id>, week: Id, dedup: Dedup, fate: Kind -> Fate): seq<Record> {
    if !out.Produced? then []
    else
      var attempts := Attempts(out.value, current, week, dedup);
      if attempts == [] then [out.rec] else AttemptRows(attempts, out.rec, fate, true)
  }

  function MoreProposals(out: Outcome<ProposeDecision>, current: seq<Id>, week: Id, dedup: Dedup, fate: Kind -> Fate): seq<Attempt> {
    if out.Produced? then Accepted(Attempts(out.value, current, week, dedup), fate) else []
  }

  lemma MoreUsage(out: Outcome<ProposeDecision>, current: seq<Id>, week: Id, dedup: Dedup, fate: Kind -> Fate)
    ensures UsageOf(MoreRows(out, current, week, dedup, fate)) ==
              if out.Produced? then UsageOf([out.rec]) else Usage(0, 0)
  {
    if out.Produced? {
      AttemptUsage(Attempts(out.value, current, week, dedup), out.rec, fate, true);
      hide Attempts, AttemptRows, UsageOf;
    }
  }

  lemma Provenance(out: Outcome<ProposeDecision>, input: Input, dedup: Dedup, g: seq<Keyed>, fate: Kind -> Fate)
    requires out.Produced? ==> DecisionOk(out.value, CarryableIds(input, dedup), CurrentIds(input), g)
    ensures FromDecision(MoreProposals(out, CurrentIds(input), input.week, dedup, fate), input, dedup, g, fate)
  {
    hide DecisionOk, Attempts, Accepted;
  }

  function ResultsOf(out: Outcome<ProposeDecision>, current: seq<Id>, week: Id, dedup: Dedup, fate: Kind -> Fate): seq<ItemResult> {
    match out
    case Produced(d, _, _) => Slots(Attempts(d, current, week, dedup), dedup, fate)
    case Nothing(_) => Slots([], dedup, fate)
    case Deferred => [Left, Left, Left]
    case Aborted => [Cut, Cut, Cut]
  }

  method Conclude(sink: Sink, out: Outcome<ProposeDecision>, written: seq<Record>, current: seq<Id>, week: Id, dedup: Dedup,
                  fate: Kind -> Fate)
    returns (results: seq<ItemResult>)
    modifies sink
    ensures sink.rows == old(sink.rows) + written + MoreRows(out, current, week, dedup, fate)
    ensures sink.proposals == old(sink.proposals) + MoreProposals(out, current, week, dedup, fate)
    ensures results == ResultsOf(out, current, week, dedup, fate)
  {
    hide Attempts, AttemptRows, Accepted;
    sink.RecordCall(written);
    match out {
      case Produced(d, engine, rec) => results := Split(sink, d, rec, current, week, dedup, fate);
      case Nothing(_) =>
        results := [NothingToDo, if dedup.skipReorder then Covered else NothingToDo, if dedup.skipCreate then Covered else NothingToDo];
      case Deferred => results := [Left, Left, Left];
      case Aborted => results := [Cut, Cut, Cut];
    }
  }

  /** The rows an item writes and the one it returns carry what was received. */
  lemma ItemRows<T>(v: View, steps: seq<LadderStep>, acts: seq<Act<T>>, port: bool)
    requires |acts| == |steps| && forall k :: 0 <= k < |steps| ==> steps[k] != Model(Reflex)
    ensures var p := Item(v, steps, acts, port);
            var written := UsageOf(Unproductive(Records(p.trace)));
            Received(p.trace) == if OutcomeOf(p).Produced? then Plus(written, UsageOf([OutcomeOf(p).rec])) else written
  {
    ItemUsage(v, steps, acts, port);
    ItemAccounting(v, steps, acts, port);
    var p := Item(v, steps, acts, port);
    hide Item;
    if OutcomeOf(p).Produced? {
      var n := |p.trace| - 1;
      assert p.trace == p.trace[..n] + [p.trace[n]];
      RecordsSnoc(p.trace[..n], p.trace[n]);
      AllUnproductive(p.trace[..n]);
      UnproductiveSnoc(Records(p.trace[..n]), p.trace[n].rec);
      UsageConcat(Records(p.trace[..n]), [p.trace[n].rec]);
      assert Unproductive(Records(p.trace[..n])) + [] == Unproductive(Records(p.trace[..n]));
    } else {
      AllUnproductive(p.trace);
    }
  }

  lemma {:induction false} AllUnproductive<T>(trace: seq<Event<T>>)
    requires forall i :: 0 <= i < |trace| ==> !Good(trace[i])
    ensures Unproductive(Records(trace)) == Records(trace)
  {
    if trace != [] {
      var e, rest := trace[0], trace[1..];
      assert !Good(e) && forall i :: 0 <= i < |rest| ==> rest[i] == trace[i + 1];
      AllUnproductive(rest);
      if e.Tried? {
        assert Records(trace) == [e.rec] + Records(rest) && ([e.rec] + Records(rest))[1..] == Records(rest);
      } else {
        assert [] + Records(rest) == Records(rest);
      }
    }
  }

  lemma ProducedHere<T>(v: View, steps: seq<LadderStep>, acts: seq<Act<T>>, port: bool) returns (k: nat)
    requires |acts| == |steps| && OutcomeOf(Item(v, steps, acts, port)).Produced?
    ensures var d := OutcomeOf(Item(v, steps, acts, port)).value;
            k < |acts| && (acts[k].parsed == Ok(d) || acts[k].rule == Some(d))
  {
    if v.aborted {
      AbortedAtOnce(v, steps, acts, port);
    }
    k := ProducedFrom(Begin(v), steps, acts, port);
    ItemAccounting(v, steps, acts, port);
  }

  /** Nothing to carry, and both other kinds are covered by pending proposals. */
  predicate AllCovered(input: Input, dedup: Dedup) {
    CarryableIds(input, dedup) == [] && dedup.skipReorder && dedup.skipCreate
  }

  /** The directions offered for new tasks: the gaps, keyed in order, without the
      ones a pending proposal already serves. */
  ghost predicate IsOffer(g: seq<Keyed>, input: Input, dedup: Dedup) {
    exists gaps :: AreGaps(gaps, input.alloc, input.weekTasks, input.directions) && g == Uncovered(gaps, dedup.excludedCreate)
  }

  /** The whole run: what it decides, writes and reports, all read off one item of
      the ladder. With nothing to carry and both other kinds covered it does not
      start at all, and then it could not have proposed anything anyway. */
  method RunPropose(st: RunState, sink: Sink, input: Input, dedup: Dedup, remoteAllowed: bool, executiveEnabled: bool,
                    port: bool, turns: seq<Turn>, fate: Kind -> Fate)
    returns (results: seq<ItemResult>, ghost g: seq<Keyed>, ghost rule: ProposeDecision, ghost done: Progress<ProposeDecision>)
    requires UniqueIds(input.prevTasks)
    requires |turns| == |Ladder.Planned(Propose, remoteAllowed, executiveEnabled, port)|
    modifies st, sink
    ensures AllCovered(input, dedup) ==>
              && results == [NothingToDo, Covered, Covered] && done == Begin(old(st.Now())) && st.Now() == old(st.Now())
              && sink.rows == old(sink.rows) && sink.proposals == old(sink.proposals)
    ensures !AllCovered(input, dedup) ==>
              && IsOffer(g, input, dedup) && IsRuleOf(rule, input, dedup)
              && done == Item(old(st.Now()), Ladder.Planned(Propose, remoteAllowed, executiveEnabled, port),
                              RunActs(turns, input, dedup, g, rule), port)
              && st.Now() == done.view
              && sink.rows == old(sink.rows) + Unproductive(Records(done.trace))
                              + MoreRows(OutcomeOf(done), CurrentIds(input), input.week, dedup, fate)
              && sink.proposals == old(sink.proposals) + MoreProposals(OutcomeOf(done), CurrentIds(input), input.week, dedup, fate)
              && results == ResultsOf(OutcomeOf(done), CurrentIds(input), input.week, dedup, fate)
    ensures UsageOf(sink.rows) == Plus(UsageOf(old(sink.rows)), Received(done.trace))
    ensures old(sink.proposals) <= sink.proposals
    ensures FromDecision(sink.proposals[|old(sink.proposals)|..], input, dedup, g, fate)
  {
    hide *;
    CoveredMeans(input, dedup);
    if CarryableIds(input, dedup) == [] && dedup.skipReorder && dedup.skipCreate {
      g, rule, done := [], ProposeDecision([], [], [], ""), Begin(st.Now());
      PlusNone(UsageOf(sink.rows));
      NothingReceived(st.Now());
      NothingProposed(input, dedup, g, fate);
      assert sink.proposals[|sink.proposals|..] == [];
      return [NothingToDo, Covered, Covered], g, rule, done;
    }
    PlansAreReal(remoteAllowed, executiveEnabled, port);
    var gaps := GapDirections(input.alloc, input.weekTasks, input.directions);
    var offer := Uncovered(gaps, dedup.excludedCreate);
    OfferIs(gaps, input, dedup);
    var steps := Plan(Propose, remoteAllowed, executiveEnabled, port);
    var own;
    results, own, done := ProposeDecide(st, sink, input, dedup, offer, steps, turns, port, fate);
    g, rule := offer, own;
  }

  lemma CoveredMeans(input: Input, dedup: Dedup)
    ensures AllCovered(input, dedup) <==> CarryableIds(input, dedup) == [] && dedup.skipReorder && dedup.skipCreate
  {
  }

  lemma OfferIs(gaps: seq<Keyed>, input: Input, dedup: Dedup)
    requires AreGaps(gaps, input.alloc, input.weekTasks, input.directions)
    ensures IsOffer(Uncovered(gaps, dedup.excludedCreate), input, dedup)
  {
    hide AreGaps, Uncovered;
  }

  lemma NothingReceived(v: View)
    ensures Received(Begin<ProposeDecision>(v).trace) == Usage(0, 0)
  {
  }

  lemma PlansAreReal(remoteAllowed: bool, executiveEnabled: bool, port: bool)
    ensures var steps := Ladder.Planned(Propose, remoteAllowed, executiveEnabled, port);
            forall k :: 0 <= k < |steps| ==> steps[k] != Model(Reflex)
  {
  }

  lemma NothingProposed(input: Input, dedup: Dedup, g: seq<Keyed>, fate: Kind -> Fate)
    ensures FromDecision([], input, dedup, g, fate)
  {
  }

  function Uncovered(g: seq<Keyed>, covered: set<Id>): seq<Keyed> {
    if g == [] then [] else (if g[0].id in covered then [] else [g[0]]) + Uncovered(g[1..], covered)
  }

  lemma SomeMember(ids: seq<Id>)
    ensures ids != [] ==> exists id :: id in ids
  {
    if ids != [] {
      assert ids[0] in ids;
    }
  }

  /** The early return leaves nothing unsaid: in that case no decision at all, of a
      model or of the rule, would have led to a single attempt. */
  lemma NothingToAttempt(d: ProposeDecision, current: seq<Id>, g: seq<Keyed>, week: Id, dedup: Dedup)
    requires DecisionOk(d, [], current, g) && dedup.skipReorder && dedup.skipCreate
    ensures Attempts(d, current, week, dedup) == []
  {
    SomeMember(d.carry);
  }

  lemma {:induction false} AcceptedAre(attempts: seq<Attempt>, fate: Kind -> Fate)
    ensures forall a :: a in Accepted(attempts, fate) ==> a in attempts
  {
    if attempts != [] {
      AcceptedAre(attempts[1..], fate);
    }
  }

  /** Where a submitted proposal comes from: the decision and its place in it. */
  lemma SubmittedFrom(added: seq<Attempt>, input: Input, dedup: Dedup, g: seq<Keyed>, fate: Kind -> Fate, a: Attempt)
    returns (d: ProposeDecision, k: nat)
    requires FromDecision(added, input, dedup, g, fate) && a in added
    ensures DecisionOk(d, CarryableIds(input, dedup), CurrentIds(input), g)
    ensures var attempts := Attempts(d, CurrentIds(input), input.week, dedup);
            k < |attempts| && attempts[k] == a
  {
    hide Attempts, Accepted, DecisionOk;
    d :| DecisionOk(d, CarryableIds(input, dedup), CurrentIds(input), g)
         && added == Accepted(Attempts(d, CurrentIds(input), input.week, dedup), fate);
    var attempts := Attempts(d, CurrentIds(input), input.week, dedup);
    AcceptedAre(attempts, fate);
    k :| 0 <= k < |attempts| && attempts[k] == a;
  }

  /** Every proposal a run submits passes the gate while its reads are still true. */
  lemma SubmittedPass(added: seq<Attempt>, input: Input, dedup: Dedup, g: seq<Keyed>, fate: Kind -> Fate, s: Snapshot, t: Terms, a: Attempt)
    requires FromDecision(added, input, dedup, g, fate) && a in added
    requires UniqueIds(input.weekTasks) && StillTrue(s, input.week, CarryableIds(input, dedup))
    ensures Validated(a.ops, s, t).Ok?
  {
    hide *;
    var d, k := SubmittedFrom(added, input, dedup, g, fate, a);
    CurrentDistinct(input);
    AttemptsPass(d, CarryableIds(input, dedup), CurrentIds(input), g, input.week, dedup, s, t, k);
  }

  lemma CurrentDistinct(input: Input)
    requires UniqueIds(input.weekTasks)
    ensures Distinct(CurrentIds(input))
  {
    OpenTasksDistinct(input.weekTasks);
  }
}
