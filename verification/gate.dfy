/** The proposal gate: a batch of operations validated against a store snapshot
    overlaid with the effects of the operations before each one. */
module Gate {
  import opened Prelude
  import opened Cron
  import opened Transitions

  type Id = string

  const TRIAGE: Id := "sin90-triage"
  const MAX_REVIEW_BODY_BYTES: nat := 64 * 1024
  const U32_MAX: nat := 0xFFFF_FFFF

  datatype Alloc = Alloc(direction: Id, pct: nat)

  datatype NewTask = NewTask(title: string, directionId: Option<Id>)

  datatype Op =
    | CreateArea(title: string)
    | CreateTask(title: string, directionId: Option<Id>, parent: Option<Id>)
    | CreateDirection(title: string, window: string)
    | TransitionTask(task: Id, to: TaskStatus)
    | CreateTasks(week: Id, tasks: seq<NewTask>)
    | ReorderTasks(week: Id, order: seq<Id>)
    | AdjustRhythm(rhythm: Id, alloc: seq<Alloc>)
    | CarryOverTask(task: Id, toWeek: Id)
    | AssignTaskDirection(task: Id, direction: Id)
    | DraftReviewBody(review: Id, base: string, body: string)

  datatype ProposalError =
    | Empty
    | UnknownEntity(entity: string, id: Id)
    | IllegalTransition(from: TaskStatus, to: TaskStatus)
    | WeekNotOpen(week: Id, weekStatus: WeekStatus)
    | RhythmRetired(rhythm: Id)
    | EmptyList(op: string, week: Id)
    | DuplicateRef(op: string, id: Id)
    | InvalidAlloc(sum: nat)
    | EmptyAllocations
    | PctOutOfRange(direction: Id, pct: nat)
    | BlankField(field: string)
    | NestedProject(parent: Id)
    | NotInInbox(task: Id, direction: Id)
    | TaskClosed(task: Id, taskStatus: TaskStatus)
    | DirectionClosed(direction: Id, directionStatus: DirectionStatus)
    | ReviewNotDraft(review: Id)
    | StaleBase(entity: string, id: Id)
    | NoChange(op: string)
    | TooLarge(field: string, maxBytes: nat)
    | BadHash

  type Verdict = Result<(), ProposalError>

  datatype ReviewSnap = ReviewSnap(draft: bool, hash: string)

  /** What the gate may ask of the store; a missing key is "no such entity". */
  datatype Snapshot = Snapshot(
    status: map<Id, TaskStatus>,
    direction: map<Id, Option<Id>>,
    parent: map<Id, Option<Id>>,
    weeks: map<Id, WeekStatus>,
    retired: map<Id, bool>,
    directions: map<Id, DirectionStatus>,
    reviews: map<Id, ReviewSnap>)

  /** What stays fixed over a batch: whose proposal it is, which parked tasks the
      classifier parked, and the digest of a body. */
  datatype Terms = Terms(direct: bool, viaClassify: set<Id>, digest: string -> string)

  // ------------------------------------------------------- structural checks

  function NonBlank(field: string, value: string): Verdict {
    if Trim(value) == "" then Err(BlankField(field)) else Ok(())
  }

  function Utf8Len(s: string): nat {
    if s == "" then 0
    else
      var c := s[0] as int;
      (if c < 0x80 then 1 else if c < 0x800 then 2 else if c < 0x1_0000 then 3 else 4) + Utf8Len(s[1..])
  }

  predicate IsLowerHex(s: string) {
    |s| == 64 && forall i :: 0 <= i < |s| ==> '0' <= s[i] <= '9' || 'a' <= s[i] <= 'f'
  }

  function Dupes(op: string, seen: set<Id>, ids: seq<Id>): Verdict
    decreases |ids|
  {
    if ids == [] then Ok(())
    else if ids[0] in seen then Err(DuplicateRef(op, ids[0]))
    else Dupes(op, seen + {ids[0]}, ids[1..])
  }

  predicate Distinct<T(==)>(xs: seq<T>) {
    forall i, j :: 0 <= i < j < |xs| ==> xs[i] != xs[j]
  }

  /** Exactly the lists without a repetition pass; a refusal names the first
      entry that repeats an earlier one. */
  lemma {:induction false} DupesIff(op: string, seen: set<Id>, ids: seq<Id>)
    ensures Dupes(op, seen, ids).Ok? <==> Distinct(ids) && forall i :: 0 <= i < |ids| ==> ids[i] !in seen
    ensures Dupes(op, seen, ids).Err? ==>
              exists k :: 0 <= k < |ids| && (ids[k] in seen || ids[k] in ids[..k]) && Distinct(ids[..k])
                          && (forall i :: 0 <= i < k ==> ids[i] !in seen)
                          && Dupes(op, seen, ids) == Err(DuplicateRef(op, ids[k]))
    decreases |ids|
  {
    if ids != [] {
      var rest, seen' := ids[1..], seen + {ids[0]};
      if ids[0] in seen {
        assert ids[..0] == [];
      } else {
        DupesIff(op, seen', rest);
        if Dupes(op, seen', rest).Ok? {
          forall i, j | 0 <= i < j < |ids| ensures ids[i] != ids[j] {
            assert ids[j] == rest[j - 1] && (i > 0 ==> ids[i] == rest[i - 1]);
          }
        } else {
          var k :| 0 <= k < |rest| && (rest[k] in seen' || rest[k] in rest[..k]) && Distinct(rest[..k])
                   && (forall i :: 0 <= i < k ==> rest[i] !in seen')
                   && Dupes(op, seen', rest) == Err(DuplicateRef(op, rest[k]));
          FirstDupe(seen, ids, k);
        }
      }
    }
  }

  lemma FirstDupe(seen: set<Id>, ids: seq<Id>, k: nat)
    requires ids != [] && ids[0] !in seen && k < |ids| - 1
    requires var rest, seen' := ids[1..], seen + {ids[0]};
             && (rest[k] in seen' || rest[k] in rest[..k]) && Distinct(rest[..k])
             && (forall i :: 0 <= i < k ==> rest[i] !in seen')
    ensures ids[k + 1] in seen || ids[k + 1] in ids[..k + 1]
    ensures Distinct(ids[..k + 1]) && (forall i :: 0 <= i < k + 1 ==> ids[i] !in seen)
    ensures !(Distinct(ids) && forall i :: 0 <= i < |ids| ==> ids[i] !in seen)
  {
    var rest := ids[1..];
    assert ids[..k + 1] == [ids[0]] + rest[..k];
    assert rest[k] == ids[k + 1];
    forall i | 0 <= i < k + 1 ensures ids[i] !in seen {
      assert i > 0 ==> ids[i] == rest[i - 1];
    }
    if ids[k + 1] in ids[..k + 1] {
      var i :| 0 <= i < k + 1 && ids[i] == ids[k + 1];
    }
  }

  method RejectDupes(op: string, ids: seq<Id>) returns (r: Verdict)
    ensures r == Dupes(op, {}, ids)
  {
    var seen: set<Id> := {};
    for i := 0 to |ids|
      invariant Dupes(op, seen, ids[i..]) == Dupes(op, {}, ids)
    {
      assert ids[i..][1..] == ids[i + 1..];
      if ids[i] in seen {
        return Err(DuplicateRef(op, ids[i]));
      }
      seen := seen + {ids[i]};
    }
    return Ok(());
  }

  function SaturatingAdd(a: nat, b: nat): nat {
    if a + b > U32_MAX then U32_MAX else a + b
  }

  function AllocRest(seen: set<Id>, sum: nat, alloc: seq<Alloc>): Verdict
    decreases |alloc|
  {
    if alloc == [] then if sum > 100 then Err(InvalidAlloc(sum)) else Ok(())
    else
      var a := alloc[0];
      if !(1 <= a.pct <= 100) then Err(PctOutOfRange(a.direction, a.pct))
      else if a.direction in seen then Err(DuplicateRef("adjust_rhythm", a.direction))
      else AllocRest(seen + {a.direction}, SaturatingAdd(sum, a.pct), alloc[1..])
  }

  function AllocVerdict(alloc: seq<Alloc>): Verdict {
    if alloc == [] then Err(EmptyAllocations) else AllocRest({}, 0, alloc)
  }

  method CheckAlloc(alloc: seq<Alloc>) returns (r: Verdict)
    ensures r == AllocVerdict(alloc)
  {
    if alloc == [] {
      return Err(EmptyAllocations);
    }
    var seen: set<Id>, sum := {}, 0;
    for i := 0 to |alloc|
      invariant AllocRest(seen, sum, alloc[i..]) == AllocRest({}, 0, alloc)
    {
      assert alloc[i..][1..] == alloc[i + 1..];
      var a := alloc[i];
      if !(1 <= a.pct <= 100) {
        return Err(PctOutOfRange(a.direction, a.pct));
      }
      if a.direction in seen {
        return Err(DuplicateRef("adjust_rhythm", a.direction));
      }
      seen := seen + {a.direction};
      sum := SaturatingAdd(sum, a.pct);
    }
    return if sum > 100 then Err(InvalidAlloc(sum)) else Ok(());
  }

  function Total(alloc: seq<Alloc>): nat {
    if alloc == [] then 0 else alloc[0].pct + Total(alloc[1..])
  }

  predicate DistinctDirections(alloc: seq<Alloc>) {
    forall i, j :: 0 <= i < j < |alloc| ==> alloc[i].direction != alloc[j].direction
  }

  predicate PctsInRange(alloc: seq<Alloc>) {
    forall i :: 0 <= i < |alloc| ==> 1 <= alloc[i].pct <= 100
  }

  lemma {:induction false} AllocRestIff(seen: set<Id>, sum: nat, alloc: seq<Alloc>)
    requires sum <= U32_MAX
    ensures AllocRest(seen, sum, alloc).Ok? <==>
              PctsInRange(alloc) && DistinctDirections(alloc) && (forall i :: 0 <= i < |alloc| ==> alloc[i].direction !in seen)
              && sum + Total(alloc) <= 100
    decreases |alloc|
  {
    if alloc != [] {
      var a, rest := alloc[0], alloc[1..];
      assert forall i :: 0 < i < |alloc| ==> alloc[i] == rest[i - 1];
      if 1 <= a.pct <= 100 && a.direction !in seen {
        AllocRestIff(seen + {a.direction}, SaturatingAdd(sum, a.pct), rest);
        if AllocRest(seen + {a.direction}, SaturatingAdd(sum, a.pct), rest).Ok? {
          forall i, j | 0 <= i < j < |alloc| ensures alloc[i].direction != alloc[j].direction {
            assert rest[j - 1].direction !in seen + {a.direction};
          }
        }
        if DistinctDirections(alloc) && (forall i :: 0 <= i < |alloc| ==> alloc[i].direction !in seen) {
          forall i | 0 <= i < |rest| ensures rest[i].direction !in seen + {a.direction} {
            assert alloc[i + 1] == rest[i];
          }
        }
      }
    }
  }

  /** The check accepts exactly the non-empty lists of shares between 1 and 100,
      one per direction, that add up to at most 100: saturation hides no overflow. */
  lemma AllocExact(alloc: seq<Alloc>)
    ensures AllocVerdict(alloc).Ok? <==> alloc != [] && PctsInRange(alloc) && DistinctDirections(alloc) && Total(alloc) <= 100
  {
    AllocRestIff({}, 0, alloc);
  }

  // ------------------------------------------ one operation, on a plain state

  function StatusOf(s: Snapshot, task: Id): Result<TaskStatus, ProposalError> {
    if task in s.status then Ok(s.status[task]) else Err(UnknownEntity("task", task))
  }

  function OpenWeek(s: Snapshot, week: Id): Verdict {
    if week !in s.weeks then Err(UnknownEntity("week", week))
    else if WeekOpen(s.weeks[week]) then Ok(())
    else Err(WeekNotOpen(week, s.weeks[week]))
  }

  function Then(a: Verdict, b: Verdict): Verdict {
    if a.Err? then a else b
  }

  function Edge(from: TaskStatus, to: TaskStatus): Verdict {
    if TaskEdge(from, to) then Ok(()) else Err(IllegalTransition(from, to))
  }

  /** May a task that already has a direction be given another? */
  predicate Reclassifiable(task: Id, existing: Id, direction: Id, t: Terms) {
    existing == TRIAGE && direction != TRIAGE && (t.direct || task in t.viaClassify)
  }

  function CheckAssign(task: Id, direction: Id, s: Snapshot, t: Terms): Verdict {
    if task !in s.direction then Err(UnknownEntity("task", task))
    else
      var current, status := s.direction[task], StatusOf(s, task);
      if status.Err? then Err(status.error)
      else if TaskTerminal(status.value) then Err(TaskClosed(task, status.value))
      else if current.Some? && !Reclassifiable(task, current.value, direction, t) then Err(NotInInbox(task, current.value))
      else if direction !in s.directions then Err(UnknownEntity("direction", direction))
      else if DirectionTerminal(s.directions[direction]) then Err(DirectionClosed(direction, s.directions[direction]))
      else Ok(())
  }

  function CheckDraft(review: Id, base: string, body: string, s: Snapshot, t: Terms): Verdict {
    if Trim(body) == "" then Err(BlankField("body"))
    else if Utf8Len(body) > MAX_REVIEW_BODY_BYTES then Err(TooLarge("body", MAX_REVIEW_BODY_BYTES))
    else if !IsLowerHex(base) then Err(BadHash)
    else if review !in s.reviews then Err(UnknownEntity("review", review))
    else if !s.reviews[review].draft then Err(ReviewNotDraft(review))
    else if s.reviews[review].hash != base then Err(StaleBase("review", review))
    else if t.digest(body) == s.reviews[review].hash then Err(NoChange("draft_review_body"))
    else Ok(())
  }

  function Check(op: Op, s: Snapshot, t: Terms): Verdict {
    match op
    case CreateArea(title) => NonBlank("title", title)
    case CreateTask(title, _, parent) =>
      Then(NonBlank("title", title),
        if parent.None? then Ok(())
        else if parent.value !in s.parent then Err(UnknownEntity("task", parent.value))
        else if s.parent[parent.value].Some? then Err(NestedProject(parent.value))
        else Ok(()))
    case CreateDirection(title, window) => Then(NonBlank("title", title), NonBlank("target_window", window))
    case TransitionTask(task, to) =>
      (match StatusOf(s, task)
       case Err(e) => Err(e)
       case Ok(from) => Edge(from, to))
    case CreateTasks(week, tasks) =>
      if tasks == [] then Err(EmptyList("create_tasks", week)) else OpenWeek(s, week)
    case ReorderTasks(week, order) =>
      Then(OpenWeek(s, week),
        if order == [] then Err(EmptyList("reorder_tasks", week)) else Dupes("reorder_tasks", {}, order))
    case AdjustRhythm(rhythm, alloc) =>
      if rhythm !in s.retired then Err(UnknownEntity("rhythm", rhythm))
      else if s.retired[rhythm] then Err(RhythmRetired(rhythm))
      else AllocVerdict(alloc)
    case CarryOverTask(task, toWeek) =>
      (match StatusOf(s, task)
       case Err(e) => Err(e)
       case Ok(from) => Then(Edge(from, CarriedOver), OpenWeek(s, toWeek)))
    case AssignTaskDirection(task, direction) => CheckAssign(task, direction, s, t)
    case DraftReviewBody(review, base, body) => CheckDraft(review, base, body, s, t)
  }

  /** The state an accepted operation leaves, as far as the gate can see. */
  function Effect(op: Op, s: Snapshot, t: Terms): Snapshot {
    match op
    case TransitionTask(task, to) => s.(status := s.status[task := to])
    case CarryOverTask(task, _) => s.(status := s.status[task := CarriedOver])
    case AssignTaskDirection(task, direction) => s.(direction := s.direction[task := Some(direction)])
    case DraftReviewBody(review, _, body) =>
      if review in s.reviews then s.(reviews := s.reviews[review := s.reviews[review].(hash := t.digest(body))]) else s
    case _ => s
  }

  /** Check and apply, one operation after the other. */
  function InTurn(ops: seq<Op>, s: Snapshot, t: Terms): Result<Snapshot, ProposalError>
    decreases |ops|
  {
    if ops == [] then Ok(s)
    else
      match Check(ops[0], s, t)
      case Err(e) => Err(e)
      case Ok(_) => InTurn(ops[1..], Effect(ops[0], s, t), t)
  }

  function Validated(ops: seq<Op>, s: Snapshot, t: Terms): Verdict {
    if ops == [] then Err(Empty)
    else
      match InTurn(ops, s, t)
      case Err(e) => Err(e)
      case Ok(_) => Ok(())
  }

  // -------------------------------------------------------------- the overlay

  class Working {
    const ctx: Snapshot
    const terms: Terms
    var task: map<Id, TaskStatus>
    var taskDirections: map<Id, Option<Id>>
    var reviewHash: map<Id, string>

    constructor (ctx: Snapshot, terms: Terms)
      ensures this.ctx == ctx && this.terms == terms
      ensures Valid() && View() == ctx
    {
      this.ctx := ctx;
      this.terms := terms;
      this.task := map[];
      this.taskDirections := map[];
      this.reviewHash := map[];
      new;
      assert ctx.status + map[] == ctx.status && ctx.direction + map[] == ctx.direction;
      assert Rehashed(ctx.reviews, map[]) == ctx.reviews;
    }

    ghost predicate Valid()
      reads this
    {
      reviewHash.Keys <= ctx.reviews.Keys
    }

    /** The state the overlay stands for. */
    ghost function View(): Snapshot
      reads this
    {
      ctx.(status := ctx.status + task, direction := ctx.direction + taskDirections,
           reviews := Rehashed(ctx.reviews, reviewHash))
    }

    method TaskStatusOf(id: Id) returns (r: Result<TaskStatus, ProposalError>)
      ensures r == StatusOf(View(), id)
    {
      if id in task {
        return Ok(task[id]);
      }
      return if id in ctx.status then Ok(ctx.status[id]) else Err(UnknownEntity("task", id));
    }

    method TaskDirectionOf(id: Id) returns (r: Option<Option<Id>>)
      ensures r == if id in View().direction then Some(View().direction[id]) else None
    {
      if id in taskDirections {
        return Some(taskDirections[id]);
      }
      return if id in ctx.direction then Some(ctx.direction[id]) else None;
    }

    method ReviewBodyHash(id: Id) returns (r: Option<string>)
      requires Valid()
      ensures r == if id in View().reviews then Some(View().reviews[id].hash) else None
    {
      if id in reviewHash {
        return Some(reviewHash[id]);
      }
      return if id in ctx.reviews then Some(ctx.reviews[id].hash) else None;
    }

    method SetTask(id: Id, s: TaskStatus)
      requires Valid()
      modifies this`task
      ensures Valid() && View() == old(View()).(status := old(View()).status[id := s])
    {
      task := task[id := s];
      assert ctx.status + task == old(View()).status[id := s];
    }

    method SetTaskDirection(id: Id, direction: Id)
      requires Valid()
      modifies this`taskDirections
      ensures Valid() && View() == old(View()).(direction := old(View()).direction[id := Some(direction)])
    {
      taskDirections := taskDirections[id := Some(direction)];
      assert ctx.direction + taskDirections == old(View()).direction[id := Some(direction)];
    }

    method SetReviewHash(id: Id, hash: string)
      requires Valid() && id in ctx.reviews
      modifies this`reviewHash
      ensures Valid()
      ensures View() == old(View()).(reviews := old(View()).reviews[id := old(View()).reviews[id].(hash := hash)])
    {
      reviewHash := reviewHash[id := hash];
      assert Rehashed(ctx.reviews, reviewHash) == old(View()).reviews[id := old(View()).reviews[id].(hash := hash)];
    }

    /** One operation against the overlay: the verdict of the plain check on the
        state the overlay stands for, and on acceptance exactly its effect. */
    method ValidateOp(op: Op) returns (r: Verdict)
      requires Valid()
      modifies this`task, this`taskDirections, this`reviewHash
      ensures Valid()
      ensures r == Check(op, old(View()), terms)
      ensures View() == if r.Ok? then Effect(op, old(View()), terms) else old(View())
    {
      match op {
        case CreateArea(title) => r := NonBlank("title", title);
        case CreateTask(title, _, parent) =>
          r := NonBlank("title", title);
          if r.Err? || parent.None? {
            return;
          } else if parent.value !in ctx.parent {
            return Err(UnknownEntity("task", parent.value));
          } else if ctx.parent[parent.value].Some? {
            return Err(NestedProject(parent.value));
          }
        case CreateDirection(title, window) =>
          r := NonBlank("title", title);
          if r.Ok? {
            r := NonBlank("target_window", window);
          }
        case TransitionTask(id, to) =>
          var from := TaskStatusOf(id);
          if from.Err? {
            return Err(from.error);
          }
          r := Edge(from.value, to);
          if r.Ok? {
            SetTask(id, to);
          }
        case CreateTasks(week, tasks) =>
          if tasks == [] {
            return Err(EmptyList("create_tasks", week));
          }
          r := OpenWeek(ctx, week);
        case ReorderTasks(week, order) =>
          r := OpenWeek(ctx, week);
          if r.Err? {
            return;
          } else if order == [] {
            return Err(EmptyList("reorder_tasks", week));
          }
          r := RejectDupes("reorder_tasks", order);
        case AdjustRhythm(rhythm, alloc) =>
          if rhythm !in ctx.retired {
            return Err(UnknownEntity("rhythm", rhythm));
          } else if ctx.retired[rhythm] {
            return Err(RhythmRetired(rhythm));
          }
          r := CheckAlloc(alloc);
        case CarryOverTask(id, toWeek) =>
          var from := TaskStatusOf(id);
          if from.Err? {
            return Err(from.error);
          }
          r := Edge(from.value, CarriedOver);
          if r.Err? {
            return;
          }
          r := OpenWeek(ctx, toWeek);
          if r.Ok? {
            SetTask(id, CarriedOver);
          }
        case AssignTaskDirection(id, direction) => r := ValidateAssign(id, direction);
        case DraftReviewBody(review, base, body) => r := ValidateDraft(review, base, body);
      }
    }

    method ValidateAssign(id: Id, direction: Id) returns (r: Verdict)
      requires Valid()
      modifies this`taskDirections
      ensures Valid()
      ensures r == CheckAssign(id, direction, old(View()), terms)
      ensures View() == if r.Ok? then Effect(AssignTaskDirection(id, direction), old(View()), terms) else old(View())
    {
      var current := TaskDirectionOf(id);
      if current.None? {
        return Err(UnknownEntity("task", id));
      }
      var status := TaskStatusOf(id);
      if status.Err? {
        return Err(status.error);
      }
      if TaskTerminal(status.value) {
        return Err(TaskClosed(id, status.value));
      }
      if current.value.Some? {
        var existing := current.value.value;
        var reclassifiable := existing == TRIAGE && direction != TRIAGE && (terms.direct || id in terms.viaClassify);
        if !reclassifiable {
          return Err(NotInInbox(id, existing));
        }
      }
      if direction !in ctx.directions {
        return Err(UnknownEntity("direction", direction));
      }
      if DirectionTerminal(ctx.directions[direction]) {
        return Err(DirectionClosed(direction, ctx.directions[direction]));
      }
      SetTaskDirection(id, direction);
      return Ok(());
    }

    method ValidateDraft(review: Id, base: string, body: string) returns (r: Verdict)
      requires Valid()
      modifies this`reviewHash
      ensures Valid()
      ensures r == CheckDraft(review, base, body, old(View()), terms)
      ensures View() == if r.Ok? then Effect(DraftReviewBody(review, base, body), old(View()), terms) else old(View())
    {
      r := NonBlank("body", body);
      if r.Err? {
        return;
      }
      if Utf8Len(body) > MAX_REVIEW_BODY_BYTES {
        return Err(TooLarge("body", MAX_REVIEW_BODY_BYTES));
      }
      if !IsLowerHex(base) {
        return Err(BadHash);
      }
      if review !in ctx.reviews {
        return Err(UnknownEntity("review", review));
      }
      var snap := ctx.reviews[review];
      if !snap.draft {
        return Err(ReviewNotDraft(review));
      }
      var known := ReviewBodyHash(review);
      var currentHash := if known.Some? then known.value else snap.hash;
      if currentHash != base {
        return Err(StaleBase("review", review));
      }
      var newHash := terms.digest(body);
      if newHash == currentHash {
        return Err(NoChange("draft_review_body"));
      }
      SetReviewHash(review, newHash);
      return Ok(());
    }
  }

  function Rehashed(reviews: map<Id, ReviewSnap>, hashes: map<Id, string>): map<Id, ReviewSnap> {
    map id | id in reviews :: if id in hashes then reviews[id].(hash := hashes[id]) else reviews[id]
  }

  /** The gate: the first offending operation decides, and the overlay is the
      same as checking and applying the operations one by one. */
  method Validate(ops: seq<Op>, ctx: Snapshot, terms: Terms) returns (r: Verdict)
    ensures r == Validated(ops, ctx, terms)
  {
    if ops == [] {
      return Err(Empty);
    }
    var w := new Working(ctx, terms);
    for i := 0 to |ops|
      invariant w.Valid() && w.ctx == ctx && w.terms == terms
      invariant InTurn(ops[i..], w.View(), terms) == InTurn(ops, ctx, terms)
    {
      assert ops[i..][1..] == ops[i + 1..];
      var verdict := w.ValidateOp(ops[i]);
      if verdict.Err? {
        return verdict;
      }
    }
    return Ok(());
  }
}
