/** The store a scheduling run read: what it proposes passes the gate there, and
    once accepted can be applied there, down to the last operation. */
module ProposeReads {
  import opened Prelude
  import opened Transitions
  import opened Gate
  import opened StoreApply
  import opened GateTheorems
  import opened Ordering
  import opened ProposeReply
  import opened Proposing

  /** All of a week's tasks as the store has them, in the order of their places. */
  ghost predicate Lists(ts: seq<Task>, st: Store, week: Id) {
    && UniqueIds(ts)
    && (forall t :: t in ts ==>
          t.id in st.tasks && st.tasks[t.id].week == Some(week)
          && st.tasks[t.id].status == t.status && st.tasks[t.id].direction == t.direction)
    && (forall id :: id in st.tasks && st.tasks[id].week == Some(week) ==> exists t :: t in ts && t.id == id)
    && (forall i, j :: 0 <= i < j < |ts| && ts[i].id in st.tasks && ts[j].id in st.tasks ==>
          st.tasks[ts[i].id].sortKey <= st.tasks[ts[j].id].sortKey)
  }

  predicate IsOpenWeek(st: Store, week: Id) {
    week in st.weeks && WeekOpen(st.weeks[week])
  }

  /** The input was read from this store: the target week is open, its tasks and
      those of an earlier open week are listed, and directions are as stored. A
      read that fails counts as empty. */
  ghost predicate ReadFrom(st: Store, prev: Option<Id>, input: Input) {
    && IsOpenWeek(st, input.week)
    && (input.weekTasks == [] || Lists(input.weekTasks, st, input.week))
    && (input.prevTasks == []
        || (prev.Some? && prev.value != input.week && IsOpenWeek(st, prev.value) && Lists(input.prevTasks, st, prev.value)))
    && (forall d :: d in input.directions ==> d in st.directions && st.directions[d] == input.directions[d])
  }

  lemma ReadIsUnique(st: Store, prev: Option<Id>, input: Input)
    requires ReadFrom(st, prev, input)
    ensures UniqueIds(input.weekTasks) && UniqueIds(input.prevTasks)
  {
  }

  /** A task that can still be carried over, from another open week. */
  predicate CanCarry(st: Store, id: Id, week: Id) {
    && id in st.tasks && Carryable(st.tasks[id].status)
    && st.tasks[id].week.Some? && st.tasks[id].week != Some(week) && TaskWeekOk(st, id)
  }

  lemma CarryableAreStored(st: Store, prev: Option<Id>, input: Input, dedup: Dedup, id: Id)
    requires ReadFrom(st, prev, input) && id in CarryableIds(input, dedup)
    ensures CanCarry(st, id, input.week)
  {
    assert id in CarryReflex(input.prevTasks);
    var t :| t in input.prevTasks && t.id == id && Carryable(t.status);
    assert st.tasks[t.id].week == prev;
  }

  lemma ReadsAreTrue(st: Store, prev: Option<Id>, input: Input, dedup: Dedup, digest: string -> string)
    requires ReadFrom(st, prev, input)
    ensures StillTrue(Snap(st, digest), input.week, CarryableIds(input, dedup))
  {
    forall id | id in CarryableIds(input, dedup) ensures CanCarry(st, id, input.week) {
      CarryableAreStored(st, prev, input, dedup, id);
    }
    hide CarryableIds, Lists, TaskWeekOk;
  }

  /** Whatever the model replied, every proposal of a run passes the gate on the
      store the run read. */
  lemma SubmittedPassWhereRead(added: seq<Attempt>, st: Store, prev: Option<Id>, input: Input, dedup: Dedup, g: seq<Keyed>,
                               fate: Kind -> Fate, source: string, digest: string -> string, a: Attempt)
    requires ReadFrom(st, prev, input) && FromDecision(added, input, dedup, g, fate) && a in added
    ensures Validated(a.ops, Snap(st, digest), TermsOf(st, source, digest)).Ok?
  {
    hide *;
    ReadIsUnique(st, prev, input);
    ReadsAreTrue(st, prev, input, dedup, digest);
    SubmittedPass(added, input, dedup, g, fate, Snap(st, digest), TermsOf(st, source, digest), a);
  }

  // ------------------------------------------------------- and can be applied

  /** Ids minted for a batch: new to the store, and none minted twice. */
  ghost predicate FreshMint(mint: seq<seq<Id>>, st: Store) {
    && (forall i, id :: 0 <= i < |mint| && id in mint[i] ==> id !in st.tasks)
    && (forall i, j, id :: 0 <= i < j < |mint| && id in mint[i] ==> id !in mint[j])
  }

  /** One task is carried over; the others can still be. */
  lemma CarryOnce(st: Store, id: Id, week: Id, row: Id, source: string, t: Terms)
    requires CanCarry(st, id, week) && IsOpenWeek(st, week) && row !in st.tasks
    ensures Check(CarryOverTask(id, week), Snap(st, t.digest), t).Ok?
    ensures var out := Apply(CarryOverTask(id, week), st, [row], source);
            && out.Ok? && out.value.weeks == st.weeks
            && (forall x :: x in out.value.tasks <==> x in st.tasks || x == row)
            && (forall x :: x in st.tasks && x != id ==> out.value.tasks[x] == st.tasks[x])
  {
  }

  lemma StillCarries(st: Store, st': Store, id: Id, week: Id)
    requires CanCarry(st, id, week) && st'.weeks == st.weeks && id in st'.tasks && st'.tasks[id] == st.tasks[id]
    ensures CanCarry(st', id, week)
  {
  }

  ghost predicate AllCanCarry(carry: seq<Id>, st: Store, week: Id) {
    Distinct(carry) && IsOpenWeek(st, week) && forall id :: id in carry ==> CanCarry(st, id, week)
  }

  /** The first task of a batch is carried over, and the rest can follow. */
  lemma CarryFirst(carry: seq<Id>, week: Id, st: Store, mint: seq<seq<Id>>, source: string, t: Terms) returns (next: Store)
    requires carry != [] && AllCanCarry(carry, st, week)
    requires |mint| == |carry| && |mint[0]| == 1 && FreshMint(mint, st)
    ensures Check(CarryOverTask(carry[0], week), Snap(st, t.digest), t).Ok?
    ensures Apply(CarryOverTask(carry[0], week), st, mint[0], source) == Ok(next)
    ensures AllCanCarry(carry[1..], next, week) && FreshMint(mint[1..], next)
  {
    var rest, more, row := carry[1..], mint[1..], mint[0][0];
    assert mint[0] == [row] && row in mint[0];
    CarryOnce(st, carry[0], week, row, source, t);
    next := Apply(CarryOverTask(carry[0], week), st, mint[0], source).value;
    hide Apply, Check, Snap;
    forall id | id in rest ensures CanCarry(next, id, week) {
      assert id in carry && id != carry[0];
      StillCarries(st, next, id, week);
    }
    hide CanCarry;
    assert forall i :: 0 <= i < |more| ==> more[i] == mint[i + 1];
  }

  lemma {:induction false} CarryApplies(carry: seq<Id>, week: Id, st: Store, mint: seq<seq<Id>>, source: string, t: Terms)
    requires AllCanCarry(carry, st, week)
    requires Minted(CarryOver(carry, week), mint) && FreshMint(mint, st)
    ensures Stepwise(CarryOver(carry, week), st, mint, source, t).Applied?
    decreases |carry|
  {
    if carry != [] {
      var ops, rest, more := CarryOver(carry, week), carry[1..], mint[1..];
      assert ops[0] == CarryOverTask(carry[0], week) && |mint[0]| == Mints(ops[0]);
      assert ops[1..] == CarryOver(rest, week);
      assert forall i :: 0 <= i < |more| ==> more[i] == mint[i + 1];
      hide Apply, Check, Snap, AllCanCarry, FreshMint;
      var next := CarryFirst(carry, week, st, mint, source, t);
      CarryApplies(rest, week, next, more, source, t);
    }
  }

  lemma {:induction false} RenumberedInWeek(tasks: map<Id, TaskRow>, week: Id, order: seq<Id>, from: nat)
    requires forall i :: 0 <= i < |order| ==> order[i] in tasks && tasks[order[i]].week == Some(week)
    ensures Renumbered(tasks, week, order, from).Ok?
    decreases |order|
  {
    if order != [] {
      RenumberedInWeek(tasks[order[0] := tasks[order[0]].(sortKey := from)], week, order[1..], from + 1);
    }
  }

  lemma OneApplies(op: Op, st: Store, mint: seq<seq<Id>>, source: string, t: Terms)
    requires Minted([op], mint) && Check(op, Snap(st, t.digest), t).Ok? && Apply(op, st, mint[0], source).Ok?
    ensures Stepwise([op], st, mint, source, t).Applied?
  {
    hide Check, Apply, Snap;
    assert [op][0] == op && [op][1..] == [] && mint[1..] == [];
  }

  lemma CurrentAreStored(st: Store, prev: Option<Id>, input: Input, order: seq<Id>, id: Id)
    requires ReadFrom(st, prev, input) && multiset(order) == multiset(CurrentIds(input)) && id in order
    ensures id in st.tasks && st.tasks[id].week == Some(input.week)
  {
    assert id in multiset(CurrentIds(input));
    var open := OpenTasks(input.weekTasks);
    var k :| 0 <= k < |open| && TaskIds(open)[k] == id;
    assert open[k] in open && open[k] in input.weekTasks;
  }

  lemma ReorderApplies(d: ProposeDecision, st: Store, prev: Option<Id>, input: Input, mint: seq<seq<Id>>, source: string, t: Terms)
    requires ReadFrom(st, prev, input) && multiset(d.order) == multiset(CurrentIds(input)) && Minted([ReorderTasks(input.week, d.order)], mint)
    requires Check(ReorderTasks(input.week, d.order), Snap(st, t.digest), t).Ok?
    ensures Stepwise([ReorderTasks(input.week, d.order)], st, mint, source, t).Applied?
  {
    hide Check, Snap;
    forall i | 0 <= i < |d.order| ensures d.order[i] in st.tasks && st.tasks[d.order[i]].week == Some(input.week) {
      CurrentAreStored(st, prev, input, d.order, d.order[i]);
    }
    hide ReadFrom, CurrentIds;
    RenumberedInWeek(st.tasks, input.week, d.order, 0);
    OneApplies(ReorderTasks(input.week, d.order), st, mint, source, t);
  }

  lemma OfferedIsStored(st: Store, prev: Option<Id>, input: Input, dedup: Dedup, g: seq<Keyed>, d: Id)
    requires ReadFrom(st, prev, input) && IsOffer(g, input, dedup) && d in Ids(g)
    ensures d in st.directions
  {
    hide Lists;
    var gaps :| AreGaps(gaps, input.alloc, input.weekTasks, input.directions) && g == Uncovered(gaps, dedup.excludedCreate);
    UncoveredAre(gaps, dedup.excludedCreate, d);
    assert IsGap(d, input.alloc, input.weekTasks, input.directions);
  }

  lemma {:induction false} UncoveredAre(g: seq<Keyed>, covered: set<Id>, d: Id)
    requires d in Ids(Uncovered(g, covered))
    ensures d in Ids(g)
  {
    var rest := Uncovered(g[1..], covered);
    assert Ids(g) == [g[0].id] + Ids(g[1..]);
    if d in Ids(rest) {
      UncoveredAre(g[1..], covered, d);
    } else {
      assert [] + rest == rest;
      assert Uncovered(g, covered) == [g[0]] + rest;
      assert Ids([g[0]] + rest) == [g[0].id] + Ids(rest);
    }
  }

  lemma CreateApplies(d: ProposeDecision, st: Store, prev: Option<Id>, input: Input, dedup: Dedup, g: seq<Keyed>,
                      mint: seq<seq<Id>>, source: string, t: Terms)
    requires ReadFrom(st, prev, input) && IsOffer(g, input, dedup) && DecisionOk(d, CarryableIds(input, dedup), CurrentIds(input), g)
    requires Minted([CreateTasks(input.week, d.newTasks)], mint)
    requires Check(CreateTasks(input.week, d.newTasks), Snap(st, t.digest), t).Ok?
    ensures Stepwise([CreateTasks(input.week, d.newTasks)], st, mint, source, t).Applied?
  {
    hide Check, Snap, IsOffer, Ids, IsTidy, CarryableIds, CurrentIds, Lists;
    var op := CreateTasks(input.week, d.newTasks);
    forall i | 0 <= i < |d.newTasks| ensures DirectionKnown(st, d.newTasks[i].directionId) {
      assert NewTaskOk(d.newTasks[i], g);
      OfferedIsStored(st, prev, input, dedup, g, d.newTasks[i].directionId.value);
    }
    OneApplies(op, st, mint, source, t);
  }

  lemma FirstChecked(op: Op, s: Snapshot, t: Terms)
    requires Validated([op], s, t).Ok?
    ensures Check(op, s, t).Ok?
  {
    hide Check, Effect;
    assert [op][0] == op;
  }

  /** What an attempt consists of. */
  lemma AttemptIs(d: ProposeDecision, current: seq<Id>, week: Id, dedup: Dedup, k: nat)
    requires k < |Attempts(d, current, week, dedup)|
    ensures var a := Attempts(d, current, week, dedup)[k];
            a.ops == CarryOver(d.carry, week) || a.ops == [ReorderTasks(week, d.order)] || a.ops == [CreateTasks(week, d.newTasks)]
  {
    hide CarryOver;
  }

  lemma DecisionNames(d: ProposeDecision, carryable: seq<Id>, current: seq<Id>, g: seq<Keyed>)
    requires DecisionOk(d, carryable, current, g)
    ensures Distinct(d.carry) && (forall id :: id in d.carry ==> id in carryable) && multiset(d.order) == multiset(current)
  {
  }

  lemma CarryAttempt(d: ProposeDecision, st: Store, prev: Option<Id>, input: Input, dedup: Dedup)
    requires ReadFrom(st, prev, input) && Distinct(d.carry) && forall id :: id in d.carry ==> id in CarryableIds(input, dedup)
    ensures AllCanCarry(d.carry, st, input.week)
  {
    hide CarryableIds, CanCarry;
    forall id | id in d.carry ensures CanCarry(st, id, input.week) {
      CarryableAreStored(st, prev, input, dedup, id);
    }
  }

  /** Accepted while the store is as the run read it, every proposal of the run is
      applied in full: neither the gate nor any relation that only applying looks
      at (an open week, another week, tasks in the week, known directions) stops it. */
  lemma SubmittedApply(added: seq<Attempt>, st: Store, prev: Option<Id>, input: Input, dedup: Dedup, g: seq<Keyed>,
                       fate: Kind -> Fate, mint: seq<seq<Id>>, source: string, digest: string -> string, a: Attempt)
    requires ReadFrom(st, prev, input) && IsOffer(g, input, dedup) && FromDecision(added, input, dedup, g, fate) && a in added
    requires Minted(a.ops, mint) && FreshMint(mint, st)
    ensures Stepwise(a.ops, st, mint, source, TermsOf(st, source, digest)).Applied?
  {
    hide *;
    var t := TermsOf(st, source, digest);
    TermsDigest(st, source, digest);
    SubmittedPassWhereRead(added, st, prev, input, dedup, g, fate, source, digest, a);
    var d, k := SubmittedFrom(added, input, dedup, g, fate, a);
    AttemptIs(d, CurrentIds(input), input.week, dedup, k);
    DecisionNames(d, CarryableIds(input, dedup), CurrentIds(input), g);
    if a.ops == CarryOver(d.carry, input.week) {
      CarryAttempt(d, st, prev, input, dedup);
      CarryApplies(d.carry, input.week, st, mint, source, t);
    } else {
      FirstChecked(a.ops[0], Snap(st, digest), t);
      if a.ops == [ReorderTasks(input.week, d.order)] {
        ReorderApplies(d, st, prev, input, mint, source, t);
      } else {
        CreateApplies(d, st, prev, input, dedup, g, mint, source, t);
      }
    }
  }

  lemma TermsDigest(st: Store, source: string, digest: string -> string)
    ensures TermsOf(st, source, digest).digest == digest
  {
  }
}
