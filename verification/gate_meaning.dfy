/** Which batches the gate accepts, said without the gate: every operation must be
    in order in the snapshot as the operations before it have changed it. */
module GateMeaning {
  import opened Prelude
  import opened Cron
  import opened Transitions
  import opened Gate

  // ----------------------------------------------- what earlier operations did

  /** The status a task has when the i-th operation comes up. */
  function StatusThen(ops: seq<Op>, i: nat, s: Snapshot, task: Id): Option<TaskStatus>
    requires i <= |ops|
  {
    if i == 0 then (if task in s.status then Some(s.status[task]) else None)
    else if ops[i - 1].TransitionTask? && ops[i - 1].task == task then Some(ops[i - 1].to)
    else if ops[i - 1].CarryOverTask? && ops[i - 1].task == task then Some(CarriedOver)
    else StatusThen(ops, i - 1, s, task)
  }

  function DirectionThen(ops: seq<Op>, i: nat, s: Snapshot, task: Id): Option<Option<Id>>
    requires i <= |ops|
  {
    if i == 0 then (if task in s.direction then Some(s.direction[task]) else None)
    else if ops[i - 1].AssignTaskDirection? && ops[i - 1].task == task then Some(Some(ops[i - 1].direction))
    else DirectionThen(ops, i - 1, s, task)
  }

  function DigestThen(ops: seq<Op>, i: nat, s: Snapshot, review: Id, digest: string -> string): Option<string>
    requires i <= |ops|
  {
    if i == 0 then (if review in s.reviews then Some(s.reviews[review].hash) else None)
    else if ops[i - 1].DraftReviewBody? && ops[i - 1].review == review && review in s.reviews then Some(digest(ops[i - 1].body))
    else DigestThen(ops, i - 1, s, review, digest)
  }

  // -------------------------------------------------- an operation in order

  predicate Readable(text: string) {
    exists k :: 0 <= k < |text| && !IsWhitespace(text[k])
  }

  const MOVES: set<(TaskStatus, TaskStatus)> :=
    {(Backlog, Planned), (Backlog, Dropped), (Planned, InProgress), (Planned, Dropped), (Planned, CarriedOver),
     (InProgress, Done), (InProgress, Dropped), (InProgress, CarriedOver)}

  predicate Takes(s: Snapshot, week: Id) {
    week in s.weeks && s.weeks[week] in {Planning, WeekActive}
  }

  predicate InOrder(ops: seq<Op>, i: nat, s: Snapshot, t: Terms)
    requires i < |ops|
  {
    match ops[i]
    case CreateArea(title) => Readable(title)
    case CreateTask(title, _, parent) =>
      Readable(title) && (parent.Some? ==> parent.value in s.parent && s.parent[parent.value] == None)
    case CreateDirection(title, window) => Readable(title) && Readable(window)
    case TransitionTask(task, to) =>
      var from := StatusThen(ops, i, s, task);
      from.Some? && (from.value, to) in MOVES
    case CreateTasks(week, tasks) => tasks != [] && Takes(s, week)
    case ReorderTasks(week, order) => order != [] && (forall a, b :: 0 <= a < b < |order| ==> order[a] != order[b]) && Takes(s, week)
    case AdjustRhythm(rhythm, alloc) =>
      && rhythm in s.retired && !s.retired[rhythm]
      && alloc != [] && Total(alloc) <= 100
      && (forall k :: 0 <= k < |alloc| ==> 1 <= alloc[k].pct)
      && (forall a, b :: 0 <= a < b < |alloc| ==> alloc[a].direction != alloc[b].direction)
    case CarryOverTask(task, toWeek) =>
      StatusThen(ops, i, s, task) in {Some(Planned), Some(InProgress)} && Takes(s, toWeek)
    case AssignTaskDirection(task, direction) =>
      var current := DirectionThen(ops, i, s, task);
      && StatusThen(ops, i, s, task) in {Some(Backlog), Some(Planned), Some(InProgress)}
      && (current == Some(None)
          || (current == Some(Some("sin90-triage")) && direction != "sin90-triage" && (t.direct || task in t.viaClassify)))
      && direction in s.directions && s.directions[direction] in {DirDraft, DirActive, DirPaused}
    case DraftReviewBody(review, base, body) =>
      && Readable(body) && Utf8Len(body) <= 65536
      && |base| == 64 && (forall k :: 0 <= k < 64 ==> base[k] in "0123456789abcdef")
      && review in s.reviews && s.reviews[review].draft
      && DigestThen(ops, i, s, review, t.digest) == Some(base) && t.digest(body) != base
  }

  // ----------------------------------------------------- the state, step by step

  function StateThen(ops: seq<Op>, i: nat, s: Snapshot, t: Terms): Snapshot
    requires i <= |ops|
  {
    if i == 0 then s else Effect(ops[i - 1], StateThen(ops, i - 1, s, t), t)
  }

  function Got<V>(m: map<Id, V>, x: Id): Option<V> {
    if x in m then Some(m[x]) else None
  }

  function GotHash(m: map<Id, ReviewSnap>, x: Id): Option<string> {
    if x in m then Some(m[x].hash) else None
  }

  /** What the state says is what the operations before did to the snapshot. */
  ghost predicate Tells(ops: seq<Op>, i: nat, s: Snapshot, t: Terms, now: Snapshot)
    requires i <= |ops|
  {
    && now.parent == s.parent && now.weeks == s.weeks && now.retired == s.retired && now.directions == s.directions
    && now.reviews.Keys == s.reviews.Keys && (forall r :: r in s.reviews ==> now.reviews[r].draft == s.reviews[r].draft)
    && (forall x :: StatusThen(ops, i, s, x) == Got(now.status, x))
    && (forall x :: DirectionThen(ops, i, s, x) == Got(now.direction, x))
    && (forall x :: DigestThen(ops, i, s, x, t.digest) == GotHash(now.reviews, x))
  }

  lemma {:induction false} StateTells(ops: seq<Op>, i: nat, s: Snapshot, t: Terms)
    requires i <= |ops|
    ensures Tells(ops, i, s, t, StateThen(ops, i, s, t))
  {
    if i > 0 {
      StateTells(ops, i - 1, s, t);
      StepTells(ops, i - 1, s, t, StateThen(ops, i - 1, s, t));
    }
  }

  lemma EffectIs(op: Op, now: Snapshot, t: Terms)
    ensures op.TransitionTask? ==> Effect(op, now, t) == now.(status := now.status[op.task := op.to])
    ensures op.CarryOverTask? ==> Effect(op, now, t) == now.(status := now.status[op.task := CarriedOver])
    ensures op.AssignTaskDirection? ==> Effect(op, now, t) == now.(direction := now.direction[op.task := Some(op.direction)])
    ensures op.DraftReviewBody? && op.review in now.reviews ==>
              Effect(op, now, t) == now.(reviews := now.reviews[op.review := now.reviews[op.review].(hash := t.digest(op.body))])
    ensures !op.TransitionTask? && !op.CarryOverTask? && !op.AssignTaskDirection? && !(op.DraftReviewBody? && op.review in now.reviews) ==>
              Effect(op, now, t) == now
  {
  }

  lemma StatusByOp(op: Op, before: Option<TaskStatus>, now: Snapshot, t: Terms, x: Id)
    requires before == Got(now.status, x)
    ensures Got(Effect(op, now, t).status, x) ==
              if op.TransitionTask? && op.task == x then Some(op.to)
              else if op.CarryOverTask? && op.task == x then Some(CarriedOver) else before
  {
    EffectIs(op, now, t);
    hide Effect;
  }

  lemma StatusStep(ops: seq<Op>, i: nat, s: Snapshot, t: Terms, now: Snapshot, x: Id)
    requires i < |ops| && StatusThen(ops, i, s, x) == Got(now.status, x)
    ensures StatusThen(ops, i + 1, s, x) == Got(Effect(ops[i], now, t).status, x)
  {
    StatusByOp(ops[i], StatusThen(ops, i, s, x), now, t, x);
    hide Effect, Got;
  }

  lemma DirectionByOp(op: Op, before: Option<Option<Id>>, now: Snapshot, t: Terms, x: Id)
    requires before == Got(now.direction, x)
    ensures Got(Effect(op, now, t).direction, x) ==
              if op.AssignTaskDirection? && op.task == x then Some(Some(op.direction)) else before
  {
    EffectIs(op, now, t);
    hide Effect;
  }

  lemma DirectionStep(ops: seq<Op>, i: nat, s: Snapshot, t: Terms, now: Snapshot, x: Id)
    requires i < |ops| && DirectionThen(ops, i, s, x) == Got(now.direction, x)
    ensures DirectionThen(ops, i + 1, s, x) == Got(Effect(ops[i], now, t).direction, x)
  {
    DirectionByOp(ops[i], DirectionThen(ops, i, s, x), now, t, x);
    hide Effect, Got;
  }

  lemma DigestByOp(op: Op, before: Option<string>, now: Snapshot, t: Terms, x: Id)
    requires before == GotHash(now.reviews, x)
    ensures GotHash(Effect(op, now, t).reviews, x) ==
              if op.DraftReviewBody? && op.review == x && x in now.reviews then Some(t.digest(op.body)) else before
  {
    EffectIs(op, now, t);
    hide Effect;
  }

  lemma DigestStep(ops: seq<Op>, i: nat, s: Snapshot, t: Terms, now: Snapshot, x: Id)
    requires i < |ops| && DigestThen(ops, i, s, x, t.digest) == GotHash(now.reviews, x) && now.reviews.Keys == s.reviews.Keys
    ensures DigestThen(ops, i + 1, s, x, t.digest) == GotHash(Effect(ops[i], now, t).reviews, x)
  {
    DigestByOp(ops[i], DigestThen(ops, i, s, x, t.digest), now, t, x);
    hide Effect, GotHash;
    assert x in now.reviews.Keys <==> x in s.reviews.Keys;
  }

  lemma RestStays(op: Op, now: Snapshot, t: Terms)
    ensures var next := Effect(op, now, t);
            && next.parent == now.parent && next.weeks == now.weeks && next.retired == now.retired && next.directions == now.directions
            && next.reviews.Keys == now.reviews.Keys && (forall r :: r in now.reviews ==> next.reviews[r].draft == now.reviews[r].draft)
  {
    EffectIs(op, now, t);
    hide Effect;
  }

  lemma StepTells(ops: seq<Op>, i: nat, s: Snapshot, t: Terms, now: Snapshot)
    requires i < |ops| && Tells(ops, i, s, t, now)
    ensures Tells(ops, i + 1, s, t, Effect(ops[i], now, t))
  {
    hide Effect, StatusThen, DirectionThen, DigestThen, Got, GotHash;
    RestStays(ops[i], now, t);
    forall x ensures StatusThen(ops, i + 1, s, x) == Got(Effect(ops[i], now, t).status, x) {
      StatusStep(ops, i, s, t, now, x);
    }
    forall x ensures DirectionThen(ops, i + 1, s, x) == Got(Effect(ops[i], now, t).direction, x) {
      DirectionStep(ops, i, s, t, now, x);
    }
    forall x ensures DigestThen(ops, i + 1, s, x, t.digest) == GotHash(Effect(ops[i], now, t).reviews, x) {
      DigestStep(ops, i, s, t, now, x);
    }
  }

  lemma {:induction false} TrimBlank(s: string)
    ensures Trim(s) != "" <==> Readable(s)
  {
    TrimStartBlank(s);
    var t := TrimStart(s);
    if t != "" {
      TrimEndKeepsFirst(t);
    }
  }

  lemma {:induction false} TrimStartBlank(s: string)
    ensures TrimStart(s) != "" <==> Readable(s)
    ensures TrimStart(s) != "" ==> !IsWhitespace(TrimStart(s)[0])
  {
    if s != "" {
      if IsWhitespace(s[0]) {
        TrimStartBlank(s[1..]);
        if Readable(s) {
          var k :| 0 <= k < |s| && !IsWhitespace(s[k]);
          assert !IsWhitespace(s[1..][k - 1]);
        }
        if Readable(s[1..]) {
          var k :| 0 <= k < |s[1..]| && !IsWhitespace(s[1..][k]);
          assert !IsWhitespace(s[k + 1]);
        }
      } else {
        assert Readable(s);
      }
    }
  }

  lemma {:induction false} TrimEndKeepsFirst(s: string)
    requires s != "" && !IsWhitespace(s[0])
    ensures TrimEnd(s) != ""
    decreases |s|
  {
    if IsWhitespace(s[|s| - 1]) {
      TrimEndKeepsFirst(s[..|s| - 1]);
    }
  }

  /** The share of no direction can be above the total. */
  lemma {:induction false} PctBelowTotal(alloc: seq<Alloc>, k: nat)
    requires k < |alloc|
    ensures alloc[k].pct <= Total(alloc)
  {
    if k > 0 {
      PctBelowTotal(alloc[1..], k - 1);
    }
  }

  lemma SharesExact(alloc: seq<Alloc>)
    ensures AllocVerdict(alloc).Ok? <==>
              && alloc != [] && Total(alloc) <= 100
              && (forall k :: 0 <= k < |alloc| ==> 1 <= alloc[k].pct)
              && (forall a, b :: 0 <= a < b < |alloc| ==> alloc[a].direction != alloc[b].direction)
  {
    AllocExact(alloc);
    hide AllocVerdict, Total;
    forall k | 0 <= k < |alloc| ensures alloc[k].pct <= Total(alloc) {
      PctBelowTotal(alloc, k);
    }
  }

  lemma HexDigits(s: string)
    ensures IsLowerHex(s) <==> |s| == 64 && forall k :: 0 <= k < 64 ==> s[k] in "0123456789abcdef"
  {
    forall c: char ensures c in "0123456789abcdef" <==> '0' <= c <= '9' || 'a' <= c <= 'f' {
      HexDigit(c);
    }
  }

  lemma HexDigit(c: char)
    ensures c in "0123456789abcdef" <==> '0' <= c <= '9' || 'a' <= c <= 'f'
  {
    var hex := "0123456789abcdef";
    assert hex == ['0', '1', '2', '3', '4', '5', '6', '7', '8', '9', 'a', 'b', 'c', 'd', 'e', 'f'];
    if '0' <= c <= '9' {
      assert hex[c as int - '0' as int] == c;
    } else if 'a' <= c <= 'f' {
      assert hex[10 + (c as int - 'a' as int)] == c;
    }
  }

  lemma WeekTakes(s: Snapshot, week: Id)
    ensures OpenWeek(s, week).Ok? <==> Takes(s, week)
    ensures week in s.weeks && !Takes(s, week) ==> OpenWeek(s, week) == Err(WeekNotOpen(week, s.weeks[week]))
  {
  }

  lemma EdgeMoves(from: TaskStatus, to: TaskStatus)
    ensures Edge(from, to).Ok? <==> (from, to) in MOVES
  {
  }

  lemma NonBlankIs(field: string, value: string)
    ensures NonBlank(field, value).Ok? <==> Readable(value)
  {
    TrimBlank(value);
  }

  lemma OrderIs(order: seq<Id>)
    ensures Dupes("reorder_tasks", {}, order).Ok? <==> forall a, b :: 0 <= a < b < |order| ==> order[a] != order[b]
  {
    DupesIff("reorder_tasks", {}, order);
  }

  /** What the checks read of the state, operation by operation. */
  ghost predicate TellsOf(ops: seq<Op>, i: nat, s: Snapshot, t: Terms, now: Snapshot)
    requires i < |ops|
  {
    var op := ops[i];
    && now.parent == s.parent && now.weeks == s.weeks && now.retired == s.retired && now.directions == s.directions
    && (op.TransitionTask? || op.CarryOverTask? || op.AssignTaskDirection? ==> StatusThen(ops, i, s, op.task) == Got(now.status, op.task))
    && (op.AssignTaskDirection? ==> DirectionThen(ops, i, s, op.task) == Got(now.direction, op.task))
    && (op.DraftReviewBody? ==>
          && DigestThen(ops, i, s, op.review, t.digest) == GotHash(now.reviews, op.review)
          && (op.review in now.reviews <==> op.review in s.reviews)
          && (op.review in s.reviews ==> now.reviews[op.review].draft == s.reviews[op.review].draft))
  }

  lemma TellsHere(ops: seq<Op>, i: nat, s: Snapshot, t: Terms, now: Snapshot)
    requires i < |ops| && Tells(ops, i, s, t, now)
    ensures TellsOf(ops, i, s, t, now)
  {
    hide StatusThen, DirectionThen, DigestThen, Got, GotHash;
    if ops[i].DraftReviewBody? {
      assert ops[i].review in now.reviews.Keys <==> ops[i].review in s.reviews.Keys;
    }
  }

  lemma AssignIs(ops: seq<Op>, i: nat, s: Snapshot, t: Terms, now: Snapshot)
    requires i < |ops| && ops[i].AssignTaskDirection? && TellsOf(ops, i, s, t, now)
    ensures Check(ops[i], now, t).Ok? <==> InOrder(ops, i, s, t)
  {
    hide StatusThen, DirectionThen;
    var task, direction := ops[i].task, ops[i].direction;
    var current, status := DirectionThen(ops, i, s, task), StatusThen(ops, i, s, task);
    assert Check(ops[i], now, t) == CheckAssign(task, direction, now, t);
    assert status in {Some(Backlog), Some(Planned), Some(InProgress)} <==> status.Some? && !TaskTerminal(status.value);
    assert direction in s.directions ==>
        (s.directions[direction] in {DirDraft, DirActive, DirPaused} <==> !DirectionTerminal(s.directions[direction]));
    if current.Some? && current.value.Some? {
      assert Reclassifiable(task, current.value.value, direction, t) <==>
          current == Some(Some("sin90-triage")) && direction != "sin90-triage" && (t.direct || task in t.viaClassify);
    }
  }

  lemma DraftIs(ops: seq<Op>, i: nat, s: Snapshot, t: Terms, now: Snapshot)
    requires i < |ops| && ops[i].DraftReviewBody? && TellsOf(ops, i, s, t, now)
    ensures Check(ops[i], now, t).Ok? <==> InOrder(ops, i, s, t)
  {
    TrimBlank(ops[i].body);
    HexDigits(ops[i].base);
    hide IsLowerHex, Utf8Len, Readable, DigestThen, Trim;
  }

  lemma MoveIs(ops: seq<Op>, i: nat, s: Snapshot, t: Terms, now: Snapshot)
    requires i < |ops| && (ops[i].TransitionTask? || ops[i].CarryOverTask?) && TellsOf(ops, i, s, t, now)
    ensures Check(ops[i], now, t).Ok? <==> InOrder(ops, i, s, t)
  {
    hide StatusThen, OpenWeek, Edge, Takes;
    var op := ops[i];
    if op.task in now.status {
      EdgeMoves(now.status[op.task], if op.TransitionTask? then op.to else CarriedOver);
    }
    if op.CarryOverTask? {
      WeekTakes(s, op.toWeek);
      SameWeeks(now, s, op.toWeek);
      assert StatusThen(ops, i, s, op.task) in {Some(Planned), Some(InProgress)} <==>
          StatusThen(ops, i, s, op.task).Some? && (StatusThen(ops, i, s, op.task).value, CarriedOver) in MOVES;
    }
  }

  /** A check on the state the earlier operations left is the condition above. */
  lemma CheckIs(ops: seq<Op>, i: nat, s: Snapshot, t: Terms, now: Snapshot)
    requires i < |ops| && Tells(ops, i, s, t, now)
    ensures Check(ops[i], now, t).Ok? <==> InOrder(ops, i, s, t)
  {
    var op := ops[i];
    TellsHere(ops, i, s, t, now);
    hide Tells, NonBlank, Dupes, AllocVerdict, OpenWeek, Readable, Takes, Total;
    if op.CreateArea? || op.CreateTask? || op.CreateDirection? {
      NonBlankIs("title", op.title);
      if op.CreateDirection? {
        NonBlankIs("target_window", op.window);
      }
    } else if op.CreateTasks? || op.ReorderTasks? {
      WeekTakes(s, op.week);
      SameWeeks(now, s, op.week);
      if op.ReorderTasks? {
        OrderIs(op.order);
      }
    } else if op.AdjustRhythm? {
      SharesExact(op.alloc);
    } else {
      hide Check, InOrder, TellsOf;
      if op.AssignTaskDirection? {
        AssignIs(ops, i, s, t, now);
      } else if op.DraftReviewBody? {
        DraftIs(ops, i, s, t, now);
      } else {
        MoveIs(ops, i, s, t, now);
      }
    }
  }

  lemma SameWeeks(a: Snapshot, b: Snapshot, week: Id)
    requires a.weeks == b.weeks
    ensures OpenWeek(a, week) == OpenWeek(b, week)
  {
  }

  lemma {:induction false} InTurnFrom(ops: seq<Op>, i: nat, s: Snapshot, t: Terms)
    requires i <= |ops|
    ensures InTurn(ops[i..], StateThen(ops, i, s, t), t).Ok? <==>
              forall j :: i <= j < |ops| ==> Check(ops[j], StateThen(ops, j, s, t), t).Ok?
    decreases |ops| - i
  {
    hide Check, Effect;
    if i < |ops| {
      InTurnFrom(ops, i + 1, s, t);
      assert ops[i..][0] == ops[i] && ops[i..][1..] == ops[i + 1..];
      assert StateThen(ops, i + 1, s, t) == Effect(ops[i], StateThen(ops, i, s, t), t);
    }
  }

  /** A batch is accepted if and only if it holds an operation and every operation
      in it is in order. */
  lemma AcceptedExactly(ops: seq<Op>, s: Snapshot, t: Terms)
    ensures Validated(ops, s, t).Ok? <==> ops != [] && forall i :: 0 <= i < |ops| ==> InOrder(ops, i, s, t)
  {
    hide Check, Effect, InOrder, Tells;
    InTurnFrom(ops, 0, s, t);
    assert ops[0..] == ops && StateThen(ops, 0, s, t) == s;
    forall i | 0 <= i < |ops| ensures Check(ops[i], StateThen(ops, i, s, t), t).Ok? <==> InOrder(ops, i, s, t) {
      StateTells(ops, i, s, t);
      CheckIs(ops, i, s, t, StateThen(ops, i, s, t));
    }
  }

  // ------------------------------------------------------------ the refusals

  /** The first operation that is not in order, and the error is its own. */
  lemma {:induction false} FirstRefused(ops: seq<Op>, i: nat, k: nat, s: Snapshot, t: Terms)
    requires i <= k < |ops| && Check(ops[k], StateThen(ops, k, s, t), t).Err?
    requires forall j :: i <= j < k ==> Check(ops[j], StateThen(ops, j, s, t), t).Ok?
    ensures InTurn(ops[i..], StateThen(ops, i, s, t), t) == Err(Check(ops[k], StateThen(ops, k, s, t), t).error)
    decreases k - i
  {
    hide Check, Effect;
    assert ops[i..][0] == ops[i] && ops[i..][1..] == ops[i + 1..];
    if i < k {
      FirstRefused(ops, i + 1, k, s, t);
      assert StateThen(ops, i + 1, s, t) == Effect(ops[i], StateThen(ops, i, s, t), t);
    }
  }

  /** What a refusal of this operation says. */
  ghost predicate Says(e: ProposalError, ops: seq<Op>, i: nat, s: Snapshot, t: Terms)
    requires i < |ops|
  {
    var op := ops[i];
    match e
    case Empty => false
    case UnknownEntity(entity, id) =>
      || (entity == "task" && (op.TransitionTask? || op.CarryOverTask?) && op.task == id && StatusThen(ops, i, s, id).None?)
      || (entity == "task" && op.AssignTaskDirection? && op.task == id
          && (DirectionThen(ops, i, s, id).None? || StatusThen(ops, i, s, id).None?))
      || (entity == "task" && op.CreateTask? && op.parent == Some(id) && id !in s.parent)
      || (entity == "week" && (op.CreateTasks? || op.ReorderTasks?) && op.week == id && id !in s.weeks)
      || (entity == "week" && op.CarryOverTask? && op.toWeek == id && id !in s.weeks)
      || (entity == "rhythm" && op.AdjustRhythm? && op.rhythm == id && id !in s.retired)
      || (entity == "direction" && op.AssignTaskDirection? && op.direction == id && id !in s.directions)
      || (entity == "review" && op.DraftReviewBody? && op.review == id && id !in s.reviews)
    case IllegalTransition(from, to) =>
      && (from, to) !in MOVES && (op.TransitionTask? || op.CarryOverTask?) && StatusThen(ops, i, s, op.task) == Some(from)
      && to == (if op.TransitionTask? then op.to else CarriedOver)
    case WeekNotOpen(week, status) =>
      && week in s.weeks && s.weeks[week] == status && status in {Reviewing, Closed}
      && ((op.CreateTasks? && op.week == week) || (op.ReorderTasks? && op.week == week) || (op.CarryOverTask? && op.toWeek == week))
    case RhythmRetired(rhythm) => op.AdjustRhythm? && op.rhythm == rhythm && rhythm in s.retired && s.retired[rhythm]
    case EmptyList(name, week) =>
      || (name == "create_tasks" && op.CreateTasks? && op.week == week && op.tasks == [])
      || (name == "reorder_tasks" && op.ReorderTasks? && op.week == week && op.order == [])
    case DuplicateRef(name, id) =>
      || (name == "reorder_tasks" && op.ReorderTasks? && id in op.order)
      || (name == "adjust_rhythm" && op.AdjustRhythm? && SharesOf(op.alloc, id))
    case InvalidAlloc(sum) => op.AdjustRhythm? && sum > 100 && sum == Saturated(Total(op.alloc))
    case EmptyAllocations => op.AdjustRhythm? && op.alloc == []
    case PctOutOfRange(direction, pct) => op.AdjustRhythm? && !(1 <= pct <= 100) && Alloc(direction, pct) in op.alloc
    case BlankField(field) =>
      || (field == "title" && (op.CreateArea? || op.CreateTask? || op.CreateDirection?) && !Readable(op.title))
      || (field == "target_window" && op.CreateDirection? && !Readable(op.window))
      || (field == "body" && op.DraftReviewBody? && !Readable(op.body))
    case NestedProject(parent) => op.CreateTask? && op.parent == Some(parent) && parent in s.parent && s.parent[parent] != None
    case NotInInbox(task, direction) =>
      op.AssignTaskDirection? && op.task == task && DirectionThen(ops, i, s, task) == Some(Some(direction))
    case TaskClosed(task, status) =>
      op.AssignTaskDirection? && op.task == task && StatusThen(ops, i, s, task) == Some(status) && status in {Done, Dropped, CarriedOver}
    case DirectionClosed(direction, status) =>
      && op.AssignTaskDirection? && op.direction == direction && direction in s.directions && s.directions[direction] == status
      && status in {Achieved, Abandoned}
    case ReviewNotDraft(review) => op.DraftReviewBody? && op.review == review && review in s.reviews && !s.reviews[review].draft
    case StaleBase(entity, id) =>
      entity == "review" && op.DraftReviewBody? && op.review == id && DigestThen(ops, i, s, id, t.digest) != Some(op.base)
    case NoChange(name) =>
      name == "draft_review_body" && op.DraftReviewBody? && DigestThen(ops, i, s, op.review, t.digest) == Some(t.digest(op.body))
    case TooLarge(field, maxBytes) => field == "body" && maxBytes == 65536 && op.DraftReviewBody? && Utf8Len(op.body) > 65536
    case BadHash => op.DraftReviewBody? && !(|op.base| == 64 && forall k :: 0 <= k < 64 ==> op.base[k] in "0123456789abcdef")
  }

  /** A sum in 32 bits that stops at the largest number they hold. */
  function Saturated(n: nat): nat {
    if n > 0xFFFF_FFFF then 0xFFFF_FFFF else n
  }

  predicate SharesOf(alloc: seq<Alloc>, id: Id) {
    exists a :: a in alloc && a.direction == id
  }

  lemma SharesMore(alloc: seq<Alloc>, id: Id)
    ensures alloc != [] && SharesOf(alloc[1..], id) ==> SharesOf(alloc, id)
    ensures alloc != [] ==> SharesOf(alloc, alloc[0].direction)
  {
    if alloc != [] {
      assert alloc[0] in alloc;
    }
  }

  lemma {:induction false} AllocError(seen: set<Id>, sum: nat, alloc: seq<Alloc>)
    requires sum <= 0xFFFF_FFFF
    ensures AllocRest(seen, sum, alloc).Err? ==>
              var e := AllocRest(seen, sum, alloc).error;
              || (e.InvalidAlloc? && e.sum > 100 && e.sum == Saturated(sum + Total(alloc)))
              || (e.PctOutOfRange? && !(1 <= e.pct <= 100) && Alloc(e.direction, e.pct) in alloc)
              || (e.DuplicateRef? && e.op == "adjust_rhythm" && SharesOf(alloc, e.id))
    decreases |alloc|
  {
    if alloc != [] {
      AllocError(seen + {alloc[0].direction}, SaturatingAdd(sum, alloc[0].pct), alloc[1..]);
      var e := AllocRest(seen, sum, alloc);
      if e.Err? && e.error.DuplicateRef? {
        SharesMore(alloc, e.error.id);
      }
      assert alloc[0] in alloc;
      hide SharesOf;
    }
  }

  lemma OrderError(order: seq<Id>)
    ensures Dupes("reorder_tasks", {}, order).Err? ==>
              var e := Dupes("reorder_tasks", {}, order).error; e.DuplicateRef? && e.op == "reorder_tasks" && e.id in order
  {
    DupesIff("reorder_tasks", {}, order);
  }

  lemma CreationSays(ops: seq<Op>, i: nat, s: Snapshot, t: Terms, now: Snapshot)
    requires i < |ops| && TellsOf(ops, i, s, t, now) && Check(ops[i], now, t).Err?
    requires ops[i].CreateArea? || ops[i].CreateTask? || ops[i].CreateDirection?
    ensures Says(Check(ops[i], now, t).error, ops, i, s, t)
  {
    TrimBlank(ops[i].title);
    if ops[i].CreateDirection? {
      TrimBlank(ops[i].window);
    }
    hide Readable, Trim;
  }

  lemma MoveSays(ops: seq<Op>, i: nat, s: Snapshot, t: Terms, now: Snapshot)
    requires i < |ops| && TellsOf(ops, i, s, t, now) && Check(ops[i], now, t).Err?
    requires ops[i].TransitionTask? || ops[i].CarryOverTask?
    ensures Says(Check(ops[i], now, t).error, ops, i, s, t)
  {
    hide StatusThen, Edge;
    if ops[i].task in now.status {
      EdgeMoves(now.status[ops[i].task], if ops[i].TransitionTask? then ops[i].to else CarriedOver);
      EdgeSays(now.status[ops[i].task], if ops[i].TransitionTask? then ops[i].to else CarriedOver);
    }
  }

  lemma EdgeSays(from: TaskStatus, to: TaskStatus)
    ensures Edge(from, to).Err? ==> Edge(from, to).error == IllegalTransition(from, to)
  {
  }

  lemma WeekSays(ops: seq<Op>, i: nat, s: Snapshot, t: Terms, now: Snapshot)
    requires i < |ops| && TellsOf(ops, i, s, t, now) && Check(ops[i], now, t).Err?
    requires ops[i].CreateTasks? || ops[i].ReorderTasks?
    ensures Says(Check(ops[i], now, t).error, ops, i, s, t)
  {
    if ops[i].ReorderTasks? {
      OrderError(ops[i].order);
    }
    hide Dupes;
  }

  lemma ShareSays(ops: seq<Op>, i: nat, s: Snapshot, t: Terms, now: Snapshot)
    requires i < |ops| && TellsOf(ops, i, s, t, now) && Check(ops[i], now, t).Err? && ops[i].AdjustRhythm?
    ensures Says(Check(ops[i], now, t).error, ops, i, s, t)
  {
    AllocError({}, 0, ops[i].alloc);
    hide AllocRest;
  }

  lemma AssignSays(ops: seq<Op>, i: nat, s: Snapshot, t: Terms, now: Snapshot)
    requires i < |ops| && TellsOf(ops, i, s, t, now) && Check(ops[i], now, t).Err? && ops[i].AssignTaskDirection?
    ensures Says(Check(ops[i], now, t).error, ops, i, s, t)
  {
    hide StatusThen, DirectionThen, Reclassifiable;
  }

  lemma DraftSays(ops: seq<Op>, i: nat, s: Snapshot, t: Terms, now: Snapshot)
    requires i < |ops| && TellsOf(ops, i, s, t, now) && Check(ops[i], now, t).Err? && ops[i].DraftReviewBody?
    ensures Says(Check(ops[i], now, t).error, ops, i, s, t)
  {
    TrimBlank(ops[i].body);
    HexDigits(ops[i].base);
    hide IsLowerHex, Utf8Len, Readable, DigestThen, Trim;
  }

  lemma CheckSays(ops: seq<Op>, i: nat, s: Snapshot, t: Terms, now: Snapshot)
    requires i < |ops| && Tells(ops, i, s, t, now) && Check(ops[i], now, t).Err?
    ensures Says(Check(ops[i], now, t).error, ops, i, s, t)
  {
    hide Tells, Check, Says, TellsOf;
    TellsHere(ops, i, s, t, now);
    var op := ops[i];
    if op.CreateArea? || op.CreateTask? || op.CreateDirection? {
      CreationSays(ops, i, s, t, now);
    } else if op.TransitionTask? || op.CarryOverTask? {
      MoveSays(ops, i, s, t, now);
    } else if op.CreateTasks? || op.ReorderTasks? {
      WeekSays(ops, i, s, t, now);
    } else if op.AdjustRhythm? {
      ShareSays(ops, i, s, t, now);
    } else if op.AssignTaskDirection? {
      AssignSays(ops, i, s, t, now);
    } else {
      DraftSays(ops, i, s, t, now);
    }
  }

  /** A refused batch is refused for its first operation that is not in order, with
      an error that says what is wrong with it. */
  lemma RefusedFor(ops: seq<Op>, k: nat, s: Snapshot, t: Terms)
    requires k < |ops| && !InOrder(ops, k, s, t) && forall j :: 0 <= j < k ==> InOrder(ops, j, s, t)
    ensures Validated(ops, s, t).Err? && Says(Validated(ops, s, t).error, ops, k, s, t)
  {
    hide Check, Effect, InOrder, Tells, Says;
    forall i | 0 <= i <= k ensures Check(ops[i], StateThen(ops, i, s, t), t).Ok? <==> InOrder(ops, i, s, t) {
      StateTells(ops, i, s, t);
      CheckIs(ops, i, s, t, StateThen(ops, i, s, t));
    }
    FirstRefused(ops, 0, k, s, t);
    assert ops[0..] == ops && StateThen(ops, 0, s, t) == s;
    StateTells(ops, k, s, t);
    CheckSays(ops, k, s, t, StateThen(ops, k, s, t));
  }

  /** In particular a batch whose first fault is the week it creates tasks in, or
      reorders, or carries a task into, is refused because that week is not open. */
  lemma ClosedWeekIsRefused(ops: seq<Op>, k: nat, s: Snapshot, t: Terms)
    requires k < |ops| && forall j :: 0 <= j < k ==> InOrder(ops, j, s, t)
    requires ops[k].CreateTasks? || ops[k].ReorderTasks? || ops[k].CarryOverTask?
    requires ops[k].CreateTasks? ==> ops[k].tasks != []
    requires ops[k].CarryOverTask? ==> StatusThen(ops, k, s, ops[k].task) in {Some(Planned), Some(InProgress)}
    ensures var week := if ops[k].CarryOverTask? then ops[k].toWeek else ops[k].week;
            week in s.weeks && s.weeks[week] in {Reviewing, Closed} ==> Validated(ops, s, t) == Err(WeekNotOpen(week, s.weeks[week]))
  {
    hide Check, Effect, InOrder, Tells;
    forall i | 0 <= i < k ensures Check(ops[i], StateThen(ops, i, s, t), t).Ok? {
      StateTells(ops, i, s, t);
      CheckIs(ops, i, s, t, StateThen(ops, i, s, t));
    }
    var now := StateThen(ops, k, s, t);
    StateTells(ops, k, s, t);
    ClosedHere(ops, k, s, t, now);
    if Check(ops[k], now, t).Err? {
      FirstRefused(ops, 0, k, s, t);
      assert ops[0..] == ops && StateThen(ops, 0, s, t) == s;
    }
  }

  lemma ClosedHere(ops: seq<Op>, k: nat, s: Snapshot, t: Terms, now: Snapshot)
    requires k < |ops| && Tells(ops, k, s, t, now)
    requires ops[k].CreateTasks? || ops[k].ReorderTasks? || ops[k].CarryOverTask?
    requires ops[k].CreateTasks? ==> ops[k].tasks != []
    requires ops[k].CarryOverTask? ==> StatusThen(ops, k, s, ops[k].task) in {Some(Planned), Some(InProgress)}
    ensures var week := if ops[k].CarryOverTask? then ops[k].toWeek else ops[k].week;
            week in s.weeks && s.weeks[week] in {Reviewing, Closed} ==> Check(ops[k], now, t) == Err(WeekNotOpen(week, s.weeks[week]))
  {
    TellsHere(ops, k, s, t, now);
    hide Tells, StatusThen, Dupes;
    if ops[k].CarryOverTask? && ops[k].task in now.status {
      EdgeMoves(now.status[ops[k].task], CarriedOver);
    }
  }

  // -------------------------------------------------------------- body sizes

  /** How many characters of a text have a code point of at least `n`. */
  function From(s: string, n: int): nat {
    if s == "" then 0 else (if s[0] as int >= n then 1 else 0) + From(s[1..], n)
  }

  /** The size of a body: one byte for each character, and one more from each of
      the code points at which UTF-8 gets longer. */
  lemma {:induction false} Utf8Exact(s: string)
    ensures Utf8Len(s) == |s| + From(s, 0x80) + From(s, 0x800) + From(s, 0x1_0000)
  {
    if s != "" {
      Utf8Exact(s[1..]);
    }
  }
}
