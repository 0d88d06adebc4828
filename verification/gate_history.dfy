/** Whole runs of the gate: what a batch may do to a task it has itself parked,
    and what can become of a task over any sequence of accepted proposals. */
module GateHistory {
  import opened Prelude
  import opened Transitions
  import opened Gate
  import opened StoreApply
  import opened GateTheorems

  // ----------------------------------------- the parking bit within one batch

  /** As `Stepwise`, with the parking bit read afresh before every operation. */
  function StepwiseLive(ops: seq<Op>, st: Store, mint: seq<seq<Id>>, source: string, digest: string -> string): Outcome
    requires |mint| == |ops| && forall i :: 0 <= i < |ops| ==> |mint[i]| == Mints(ops[i])
    decreases |ops|
  {
    if ops == [] then Applied(st)
    else
      match Check(ops[0], Snap(st, digest), TermsOf(st, source, digest))
      case Err(e) => Refused(e)
      case Ok(_) =>
        match Apply(ops[0], st, mint[0], source)
        case Err(e) => Failed(e)
        case Ok(next) => StepwiseLive(ops[1..], next, mint[1..], source, digest)
  }

  function Parks(op: Op, parked: set<Id>): set<Id> {
    if op.AssignTaskDirection? && op.direction == TRIAGE then parked + {op.task} else parked
  }

  /** Does the batch reassign a task that it has itself parked? */
  predicate Reclaims(ops: seq<Op>, parked: set<Id>)
    decreases |ops|
  {
    ops != []
    && ((ops[0].AssignTaskDirection? && ops[0].task in parked) || Reclaims(ops[1..], Parks(ops[0], parked)))
  }

  /** What the stale bit still says rightly of one task. */
  predicate BitOk(st: Store, via: set<Id>, parked: set<Id>, source: string, id: Id) {
    && (id in ViaClassify(st) <==>
          && id in st.tasks && st.tasks[id].direction == Some(TRIAGE)
          && (id in via || (id in parked && source == CLASSIFY)))
    && (id in parked ==> id !in via)
    && (id in parked || id in via ==> id in st.tasks && st.tasks[id].direction.Some?)
  }

  ghost predicate BitsOk(ops: seq<Op>, st: Store, via: set<Id>, parked: set<Id>, source: string) {
    forall i :: 0 <= i < |ops| && ops[i].AssignTaskDirection? ==> BitOk(st, via, parked, source, ops[i].task)
  }

  lemma {:induction false} RenumberedKeepsVia(tasks: map<Id, TaskRow>, week: Id, order: seq<Id>, from: nat, id: Id)
    requires Renumbered(tasks, week, order, from).Ok? && id in tasks
    ensures var out := Renumbered(tasks, week, order, from).value;
            id in out && out[id].via == tasks[id].via && out[id].direction == tasks[id].direction
    decreases |order|
  {
    RenumberedKeeps(tasks, week, order, from);
  }

  /** Only an assignment writes the bit of a task that was there before. */
  lemma ViaFrame(op: Op, st: Store, ids: seq<Id>, source: string, id: Id)
    requires |ids| == Mints(op) && Apply(op, st, ids, source).Ok? && id !in ids
    ensures var st' := Apply(op, st, ids, source).value;
            && (id in st'.tasks <==> id in st.tasks)
            && (id in st.tasks && !(op.AssignTaskDirection? && op.task == id) ==>
                  st'.tasks[id].via == st.tasks[id].via && st'.tasks[id].direction == st.tasks[id].direction)
            && (id in st.tasks && op.AssignTaskDirection? && op.task == id ==>
                  st'.tasks[id].via == FiledVia(Some(op.direction), source) && st'.tasks[id].direction == Some(op.direction))
  {
    hide TaskWeekOk, TaskEdge, FiledVia, DirectionKnown, RhythmEdge, MissingDirection;
    match op
    case CreateTasks(week, tasks) => RowsAdded(week, tasks, ids);
    case ReorderTasks(week, order) =>
      RenumberedKeeps(st.tasks, week, order, 0);
      if id in st.tasks {
        RenumberedKeepsVia(st.tasks, week, order, 0, id);
      }
    case _ =>
  }

  lemma BitKept(op: Op, st: Store, ids: seq<Id>, source: string, t: Terms, parked: set<Id>, id: Id)
    requires |ids| == Mints(op) && Apply(op, st, ids, source).Ok? && id !in ids
    requires Check(op, Snap(st, t.digest), TermsOf(st, source, t.digest)).Ok?
    requires BitOk(st, t.viaClassify, parked, source, id)
    ensures BitOk(Apply(op, st, ids, source).value, t.viaClassify, Parks(op, parked), source, id)
  {
    ViaFrame(op, st, ids, source, id);
    CheckedNames(op, Snap(st, t.digest), TermsOf(st, source, t.digest));
    hide Apply, Check;
  }

  /** Where the stale bit and the live bit part company. */
  lemma BitMatters(op: Op, st: Store, source: string, t: Terms, parked: set<Id>)
    requires t.direct == (source == DIRECT)
    requires op.AssignTaskDirection? ==> BitOk(st, t.viaClassify, parked, source, op.task)
    requires Check(op, Snap(st, t.digest), TermsOf(st, source, t.digest)).Ok?
    ensures Check(op, Snap(st, t.digest), t).Ok? <==>
              source != CLASSIFY || !(op.AssignTaskDirection? && op.task in parked)
    ensures Check(op, Snap(st, t.digest), t).Err? ==>
              op.AssignTaskDirection? && Check(op, Snap(st, t.digest), t) == Err(NotInInbox(op.task, TRIAGE))
  {
    if !op.AssignTaskDirection? {
      CheckLocalNonAssign(op, Snap(st, t.digest), TermsOf(st, source, t.digest), t);
    } else {
      CheckedNames(op, Snap(st, t.digest), TermsOf(st, source, t.digest));
    }
  }

  lemma CheckLocalNonAssign(op: Op, s: Snapshot, t: Terms, u: Terms)
    requires !op.AssignTaskDirection? && t.digest == u.digest
    ensures Check(op, s, t) == Check(op, s, u)
  {
  }

  lemma {:induction false} LiveAgainstStale(ops: seq<Op>, st: Store, mint: seq<seq<Id>>, source: string, t: Terms, parked: set<Id>)
    requires t.direct == (source == DIRECT) && Minted(ops, mint) && AllApart(ops, mint)
    requires BitsOk(ops, st, t.viaClassify, parked, source)
    requires StepwiseLive(ops, st, mint, source, t.digest).Applied?
    ensures Stepwise(ops, st, mint, source, t).Applied? <==> source != CLASSIFY || !Reclaims(ops, parked)
    ensures !Stepwise(ops, st, mint, source, t).Failed?
    decreases |ops|
  {
    if ops != [] {
      var op, rest, more := ops[0], ops[1..], mint[1..];
      BitMatters(op, st, source, t, parked);
      var st' := Apply(op, st, mint[0], source).value;
      assert forall i :: 0 <= i < |rest| ==> rest[i] == ops[i + 1] && more[i] == mint[i + 1];
      forall i | 0 <= i < |rest| && rest[i].AssignTaskDirection?
        ensures BitOk(st', t.viaClassify, Parks(op, parked), source, rest[i].task)
      {
        assert Apart(mint[0], Asks(ops[i + 1]));
        BitKept(op, st, mint[0], source, t, parked, rest[i].task);
      }
      hide Check, Apply, Snap, Asks, Apart, Mints, BitOk;
      LiveAgainstStale(rest, st', more, source, t, Parks(op, parked));
    }
  }

  /** Reading the parking bit once per batch is harmless except in one case: a
      batch that would pass and apply with the bit read afresh is accepted
      exactly if it is not a classifier's batch that reassigns a task it parked. */
  lemma ParkingBitExact(ops: seq<Op>, st: Store, mint: seq<seq<Id>>, source: string, digest: string -> string)
    requires ops != [] && Minted(ops, mint) && AllApart(ops, mint)
    requires StepwiseLive(ops, st, mint, source, digest).Applied?
    ensures Validated(ops, Snap(st, digest), TermsOf(st, source, digest)).Ok? <==> source != CLASSIFY || !Reclaims(ops, {})
  {
    var t := TermsOf(st, source, digest);
    OverlayIsSequential(ops, st, mint, source, t);
    hide Check, Apply, Snap, Asks, Apart, Mints;
    LiveAgainstStale(ops, st, mint, source, t, {});
  }

  /** One open task in a store with the parking direction and another. */
  function OneTask(direction: Option<Id>, via: Option<string>): Store {
    Store(map["t" := TaskRow(Backlog, direction, None, None, 0, via)], map[], map[], map[TRIAGE := DirActive, "d" := DirActive],
          map[], {})
  }

  const PARK: Op := AssignTaskDirection("t", TRIAGE)
  const RECLASSIFY: Op := AssignTaskDirection("t", "d")

  lemma ParkThenReclassify(digest: string -> string)
    ensures var st, mid := OneTask(None, None), OneTask(Some(TRIAGE), Some(CLASSIFY));
            && Check(PARK, Snap(st, digest), TermsOf(st, CLASSIFY, digest)).Ok?
            && Apply(PARK, st, [], CLASSIFY) == Ok(mid)
            && Check(RECLASSIFY, Snap(mid, digest), TermsOf(mid, CLASSIFY, digest)).Ok?
            && Apply(RECLASSIFY, mid, [], CLASSIFY).Ok?
  {
    var st, mid := OneTask(None, None), OneTask(Some(TRIAGE), Some(CLASSIFY));
    assert st.tasks["t" := mid.tasks["t"]] == mid.tasks;
  }

  /** The case is real: park and reclassify in one classifier batch. */
  lemma ParkingBitLags(digest: string -> string)
    ensures var st, ops, mint: seq<seq<Id>> := OneTask(None, None), [PARK, RECLASSIFY], [[], []];
            && StepwiseLive(ops, st, mint, CLASSIFY, digest).Applied?
            && Validated(ops, Snap(st, digest), TermsOf(st, CLASSIFY, digest)).Err?
  {
    var st, ops, mint: seq<seq<Id>> := OneTask(None, None), [PARK, RECLASSIFY], [[], []];
    var mid := OneTask(Some(TRIAGE), Some(CLASSIFY));
    ParkThenReclassify(digest);
    assert ops[1..] == [RECLASSIFY] && mint[1..] == [[]];
    assert Reclaims([RECLASSIFY], Parks(PARK, {}));
    LiveStep(ops, st, mint, digest, mid);
    LiveStep([RECLASSIFY], mid, [[]], digest, Apply(RECLASSIFY, mid, [], CLASSIFY).value);
    hide Check, Apply, Snap, TermsOf, OneTask, Validated, StepwiseLive;
    ParkingBitExact(ops, st, mint, CLASSIFY, digest);
  }

  lemma LiveStep(ops: seq<Op>, st: Store, mint: seq<seq<Id>>, digest: string -> string, next: Store)
    requires ops != [] && Minted(ops, mint)
    requires Check(ops[0], Snap(st, digest), TermsOf(st, CLASSIFY, digest)).Ok? && Apply(ops[0], st, mint[0], CLASSIFY) == Ok(next)
    ensures Minted(ops[1..], mint[1..])
    ensures StepwiseLive(ops, st, mint, CLASSIFY, digest) == StepwiseLive(ops[1..], next, mint[1..], CLASSIFY, digest)
    ensures |ops| == 1 ==> StepwiseLive(ops, st, mint, CLASSIFY, digest) == Applied(next)
  {
    hide Check, Apply, Snap, TermsOf;
  }

  // --------------------------------------------------- a task's whole history

  /** An accepted proposal, applied in full; or anything else that happens to the
      store without changing the tasks it already holds. */
  datatype Event =
    | Accept(ops: seq<Op>, source: string, mint: seq<seq<Id>>)
    | Elsewhere(next: Store)

  ghost predicate KeepsTasks(a: Store, b: Store) {
    forall id :: id in a.tasks ==> id in b.tasks && b.tasks[id] == a.tasks[id]
  }

  /** Applying in turn, with ids minted fresh each time. */
  ghost predicate CanApply(ops: seq<Op>, st: Store, mint: seq<seq<Id>>, source: string)
    decreases |ops|
  {
    && Minted(ops, mint)
    && (ops == [] ||
        (Fresh(st, ops[0], mint[0]) && Apply(ops[0], st, mint[0], source).Ok?
         && CanApply(ops[1..], Apply(ops[0], st, mint[0], source).value, mint[1..], source)))
  }

  /** Every state the store goes through while a batch is applied, last one included. */
  ghost function During(ops: seq<Op>, st: Store, mint: seq<seq<Id>>, source: string): (h: seq<Store>)
    requires CanApply(ops, st, mint, source)
    decreases |ops|
  {
    if ops == [] then [st]
    else [st] + During(ops[1..], Apply(ops[0], st, mint[0], source).value, mint[1..], source)
  }

  ghost predicate CanHappen(st: Store, e: Event, digest: string -> string) {
    match e
    case Elsewhere(next) => KeepsTasks(st, next)
    case Accept(ops, source, mint) =>
      Validated(ops, Snap(st, digest), TermsOf(st, source, digest)).Ok? && CanApply(ops, st, mint, source)
  }

  ghost function Passed(st: Store, e: Event, digest: string -> string): (h: seq<Store>)
    requires CanHappen(st, e, digest)
    ensures h != []
  {
    match e
    case Elsewhere(next) => [next]
    case Accept(ops, source, mint) =>
      DuringIsSome(ops, st, mint, source);
      During(ops, st, mint, source)
  }

  lemma DuringIsSome(ops: seq<Op>, st: Store, mint: seq<seq<Id>>, source: string)
    requires CanApply(ops, st, mint, source)
    ensures During(ops, st, mint, source) != [] && During(ops, st, mint, source)[0] == st
  {
  }

  ghost predicate ValidRun(st: Store, es: seq<Event>, digest: string -> string)
    decreases |es|
  {
    es == [] || (CanHappen(st, es[0], digest) && ValidRun(Last(Passed(st, es[0], digest)), es[1..], digest))
  }

  function Last<T>(h: seq<T>): T
    requires h != []
  {
    h[|h| - 1]
  }

  /** The states of a whole run, the starting one first. */
  ghost function History(st: Store, es: seq<Event>, digest: string -> string): seq<Store>
    requires ValidRun(st, es, digest)
    decreases |es|
  {
    if es == [] then [st]
    else [st] + Passed(st, es[0], digest) + History(Last(Passed(st, es[0], digest)), es[1..], digest)
  }

  /** No direction yet, parked, or settled. */
  function Stage(d: Option<Id>): nat {
    if d.None? then 0 else if d.value == TRIAGE then 1 else 2
  }

  /** What one moment may change about one task. */
  predicate Moves(a: TaskRow, b: TaskRow) {
    && (a.status == b.status || TaskEdge(a.status, b.status))
    && (a.direction == b.direction || Stage(a.direction) < Stage(b.direction))
  }

  ghost predicate Adjacent(a: Store, b: Store) {
    forall id :: id in a.tasks ==> id in b.tasks && Moves(a.tasks[id], b.tasks[id])
  }

  ghost predicate Chain(h: seq<Store>) {
    forall k :: 0 <= k < |h| - 1 ==> Adjacent(h[k], h[k + 1])
  }

  lemma ApplyIsAdjacent(op: Op, st: Store, ids: seq<Id>, source: string)
    requires Fresh(st, op, ids) && Apply(op, st, ids, source).Ok?
    ensures Adjacent(st, Apply(op, st, ids, source).value)
  {
    ApplyFramesTasks(op, st, ids, source);
    NamedTaskMoves(op, st, ids, source);
    hide Apply, Check;
  }

  lemma NamedTaskMoves(op: Op, st: Store, ids: seq<Id>, source: string)
    requires |ids| == Mints(op) && Apply(op, st, ids, source).Ok?
    ensures op.TransitionTask? ==> op.task in st.tasks && TaskEdge(st.tasks[op.task].status, op.to)
    ensures op.CarryOverTask? ==> op.task in st.tasks && TaskEdge(st.tasks[op.task].status, CarriedOver)
    ensures op.AssignTaskDirection? ==>
              op.task in st.tasks
              && (st.tasks[op.task].direction.None? || st.tasks[op.task].direction == Some(TRIAGE))
  {
  }

  lemma ChainAppends(a: seq<Store>, b: seq<Store>)
    requires a != [] && b != [] && Chain(a) && Chain(b) && Adjacent(Last(a), b[0])
    ensures Chain(a + b)
  {
    forall k | 0 <= k < |a + b| - 1 ensures Adjacent((a + b)[k], (a + b)[k + 1]) {
      if k < |a| - 1 {
      } else if k == |a| - 1 {
      } else {
        assert Adjacent(b[k - |a|], b[k - |a| + 1]);
      }
    }
  }

  lemma {:induction false} DuringIsChain(ops: seq<Op>, st: Store, mint: seq<seq<Id>>, source: string)
    requires CanApply(ops, st, mint, source)
    ensures Chain(During(ops, st, mint, source)) && During(ops, st, mint, source) != []
    ensures During(ops, st, mint, source)[0] == st
    decreases |ops|
  {
    if ops != [] {
      var st' := Apply(ops[0], st, mint[0], source).value;
      ApplyIsAdjacent(ops[0], st, mint[0], source);
      DuringIsChain(ops[1..], st', mint[1..], source);
      hide Apply, Adjacent, Chain, CanApply;
      ChainOfOne(st);
      ChainAppends([st], During(ops[1..], st', mint[1..], source));
    } else {
      ChainOfOne(st);
    }
  }

  lemma ChainOfOne(st: Store)
    ensures Chain([st])
  {
  }

  lemma StaysPut(st: Store)
    ensures Adjacent(st, st)
  {
  }

  lemma PassedIsChain(st: Store, e: Event, digest: string -> string)
    requires CanHappen(st, e, digest)
    ensures Chain(Passed(st, e, digest)) && Adjacent(st, Passed(st, e, digest)[0])
  {
    match e
    case Elsewhere(next) => ChainOfOne(next);
    case Accept(ops, source, mint) =>
      DuringIsChain(ops, st, mint, source);
      StaysPut(st);
  }

  lemma {:induction false} HistoryIsChain(st: Store, es: seq<Event>, digest: string -> string)
    requires ValidRun(st, es, digest)
    ensures Chain(History(st, es, digest)) && History(st, es, digest) != [] && History(st, es, digest)[0] == st
    decreases |es|
  {
    ChainOfOne(st);
    if es != [] {
      var passed := Passed(st, es[0], digest);
      PassedIsChain(st, es[0], digest);
      HistoryIsChain(Last(passed), es[1..], digest);
      StaysPut(Last(passed));
      hide Passed, Chain, Adjacent;
      ChainAppends([st], passed);
      ChainAppends([st] + passed, History(Last(passed), es[1..], digest));
    }
  }

  // ------------------------------------------------------------ the theorems

  function StatusChanges(h: seq<Store>, id: Id): nat
    requires forall k :: 0 <= k < |h| ==> id in h[k].tasks
  {
    if |h| <= 1 then 0
    else (if h[0].tasks[id].status == h[1].tasks[id].status then 0 else 1) + StatusChanges(h[1..], id)
  }

  function DirectionChanges(h: seq<Store>, id: Id): nat
    requires forall k :: 0 <= k < |h| ==> id in h[k].tasks
  {
    if |h| <= 1 then 0
    else (if h[0].tasks[id].direction == h[1].tasks[id].direction then 0 else 1) + DirectionChanges(h[1..], id)
  }

  lemma {:induction false} TaskStays(h: seq<Store>, id: Id)
    requires Chain(h) && h != [] && id in h[0].tasks
    ensures forall k :: 0 <= k < |h| ==> id in h[k].tasks
    decreases |h|
  {
    if |h| > 1 {
      assert Adjacent(h[0], h[1]);
      ChainTail(h);
      TaskStays(h[1..], id);
      forall k | 0 <= k < |h| ensures id in h[k].tasks {
        if k > 0 {
          assert h[k] == h[1..][k - 1];
        }
      }
    }
  }

  lemma ChainTail(h: seq<Store>)
    requires Chain(h) && h != []
    ensures Chain(h[1..])
  {
    forall k | 0 <= k < |h| - 2 ensures Adjacent(h[1..][k], h[1..][k + 1]) {
      assert Adjacent(h[k + 1], h[k + 2]);
    }
  }

  lemma EdgeSpends(from: TaskStatus, to: TaskStatus)
    requires TaskEdge(from, to)
    ensures Left(to) < Left(from)
  {
  }

  lemma {:induction false} ChangesAreBounded(h: seq<Store>, id: Id)
    requires Chain(h) && h != [] && forall k :: 0 <= k < |h| ==> id in h[k].tasks
    ensures StatusChanges(h, id) + Left(Last(h).tasks[id].status) <= Left(h[0].tasks[id].status)
    ensures DirectionChanges(h, id) + Stage(h[0].tasks[id].direction) <= Stage(Last(h).tasks[id].direction)
    ensures Stage(h[0].tasks[id].direction) == Stage(Last(h).tasks[id].direction) ==>
              Last(h).tasks[id].direction == h[0].tasks[id].direction
    decreases |h|
  {
    if |h| > 1 {
      assert Adjacent(h[0], h[1]);
      var a, b := h[0].tasks[id], h[1].tasks[id];
      assert Moves(a, b);
      if a.status != b.status {
        EdgeSpends(a.status, b.status);
      }
      ChainTail(h);
      assert forall k :: 0 <= k < |h| - 1 ==> h[1..][k] == h[k + 1];
      hide Chain, Left, Stage, TaskEdge;
      ChangesAreBounded(h[1..], id);
    }
  }

  lemma ChainSlice(h: seq<Store>, i: nat, j: nat)
    requires Chain(h) && i <= j < |h|
    ensures Chain(h[i..j + 1])
  {
    var part := h[i..j + 1];
    forall k | 0 <= k < |part| - 1 ensures Adjacent(part[k], part[k + 1]) {
      assert part[k] == h[i + k] && part[k + 1] == h[i + k + 1];
      assert Adjacent(h[i + k], h[i + k + 1]);
    }
  }

  /** Over any run of accepted proposals, between which anything may happen to the
      rest of the store while the tasks it holds stay as they are, a task changes
      status at most three times, never leaves a terminal status, and goes from no
      direction to parked to one real direction, skipping steps but never back, and
      never from one real direction to another. */
  lemma TaskHistory(st: Store, es: seq<Event>, digest: string -> string, id: Id, i: nat, j: nat)
    requires ValidRun(st, es, digest)
    requires i <= j < |History(st, es, digest)| && id in History(st, es, digest)[i].tasks
    ensures var h := History(st, es, digest)[i..j + 1];
            && (forall k :: 0 <= k < |h| ==> id in h[k].tasks)
            && StatusChanges(h, id) <= 3 && DirectionChanges(h, id) <= 2
            && var a, b := h[0].tasks[id], Last(h).tasks[id];
            && (TaskTerminal(a.status) ==> b.status == a.status)
            && Stage(a.direction) <= Stage(b.direction)
            && (Stage(a.direction) == Stage(b.direction) ==> b.direction == a.direction)
  {
    HistoryIsChain(st, es, digest);
    var h := History(st, es, digest)[i..j + 1];
    ChainSlice(History(st, es, digest), i, j);
    TaskStays(h, id);
    ChangesAreBounded(h, id);
    TerminalStays(h, id);
  }

  lemma {:induction false} TerminalStays(h: seq<Store>, id: Id)
    requires Chain(h) && h != [] && forall k :: 0 <= k < |h| ==> id in h[k].tasks
    ensures TaskTerminal(h[0].tasks[id].status) ==> Last(h).tasks[id].status == h[0].tasks[id].status
    decreases |h|
  {
    if |h| > 1 && TaskTerminal(h[0].tasks[id].status) {
      assert Adjacent(h[0], h[1]);
      assert Moves(h[0].tasks[id], h[1].tasks[id]);
      ChainTail(h);
      assert forall k :: 0 <= k < |h| - 1 ==> h[1..][k] == h[k + 1];
      TerminalStays(h[1..], id);
    }
  }
}
