/** The store behind the gate: the snapshot it hands out and what applying an
    accepted operation writes. */
module StoreApply {
  import opened Prelude
  import opened Transitions
  import opened Gate

  datatype TaskRow = TaskRow(
    status: TaskStatus, direction: Option<Id>, parent: Option<Id>, week: Option<Id>, sortKey: nat, via: Option<string>)

  datatype ReviewRow = ReviewRow(draft: bool, body: string)

  datatype Store = Store(
    tasks: map<Id, TaskRow>,
    weeks: map<Id, WeekStatus>,
    rhythms: map<Id, RhythmStatus>,
    directions: map<Id, DirectionStatus>,
    reviews: map<Id, ReviewRow>,
    areas: set<Id>)

  /** Applying re-checks under the write lock. The first five are relations the
      gate does not look at; the last three repeat what the gate decided. */
  datatype ApplyError =
    | TaskWeekClosed(task: Id)
    | SameWeekCarry(task: Id)
    | NotInWeek(task: Id, week: Id)
    | UnknownDirection(direction: Id)
    | ForeignKey
    | NotFound(entity: string, id: Id)
    | Illegal(from: TaskStatus, to: TaskStatus)
    | Conflict(id: Id)

  const DIRECT: string := "direct"
  const CLASSIFY: string := "classify"

  // ------------------------------------------------------------- the snapshot

  function StatusMap(tasks: map<Id, TaskRow>): map<Id, TaskStatus> {
    map id | id in tasks :: tasks[id].status
  }

  function DirectionMap(tasks: map<Id, TaskRow>): map<Id, Option<Id>> {
    map id | id in tasks :: tasks[id].direction
  }

  function ParentMap(tasks: map<Id, TaskRow>): map<Id, Option<Id>> {
    map id | id in tasks :: tasks[id].parent
  }

  function RetiredMap(rhythms: map<Id, RhythmStatus>): map<Id, bool> {
    map id | id in rhythms :: rhythms[id] == Retired
  }

  function ReviewMap(reviews: map<Id, ReviewRow>, digest: string -> string): map<Id, ReviewSnap> {
    map id | id in reviews :: ReviewSnap(reviews[id].draft, digest(reviews[id].body))
  }

  /** Everything the gate could ask of this store. */
  function Snap(st: Store, digest: string -> string): Snapshot {
    Snapshot(StatusMap(st.tasks), DirectionMap(st.tasks), ParentMap(st.tasks), st.weeks, RetiredMap(st.rhythms),
             st.directions, ReviewMap(st.reviews, digest))
  }

  predicate ParkedByClassify(r: TaskRow) {
    r.direction == Some(TRIAGE) && r.via == Some(CLASSIFY)
  }

  function ViaClassify(st: Store): set<Id> {
    set id | id in st.tasks && ParkedByClassify(st.tasks[id])
  }

  function TermsOf(st: Store, source: string, digest: string -> string): Terms {
    Terms(source == DIRECT, ViaClassify(st), digest)
  }

  /** The parking bit as the gate will read it. */
  predicate ViaLoaded(via: set<Id>, st: Store, op: Op) {
    op.AssignTaskDirection? ==> (op.task in via <==> op.task in ViaClassify(st))
  }

  predicate ReadyFor(s: Snapshot, via: set<Id>, st: Store, op: Op, digest: string -> string) {
    AgreeOn(Asks(op), s, Snap(st, digest)) && ViaLoaded(via, st, op)
  }

  const NOTHING: Snapshot := Snapshot(map[], map[], map[], map[], map[], map[], map[])

  lemma NothingIsFaithful(full: Snapshot)
    ensures Faithful(NOTHING, full)
  {
  }

  /** Loads only the rows the batch mentions; the parking bit only for a task
      that is parked now. The gate will read the store through it all the same. */
  method BuildSnapshot(st: Store, ops: seq<Op>, digest: string -> string) returns (s: Snapshot, via: set<Id>)
    ensures forall i :: 0 <= i < |ops| ==> ReadyFor(s, via, st, ops[i], digest)
  {
    hide *;
    s, via := NOTHING, {};
    NothingIsFaithful(Snap(st, digest));
    for i := 0 to |ops|
      invariant Faithful(s, Snap(st, digest)) && via <= ViaClassify(st)
      invariant forall j :: 0 <= j < i ==> ReadyFor(s, via, st, ops[j], digest)
    {
      var s', via' := LoadOp(s, via, st, ops[i], digest);
      forall j | 0 <= j < i ensures ReadyFor(s', via', st, ops[j], digest) {
        StaysReady(s, via, st, Asks(ops[i]), via', ops[j], digest);
      }
      s, via := s', via';
    }
  }

  method LoadOp(s: Snapshot, via: set<Id>, st: Store, op: Op, digest: string -> string) returns (s': Snapshot, via': set<Id>)
    requires Faithful(s, Snap(st, digest)) && via <= ViaClassify(st)
    ensures s' == Loaded(s, Snap(st, digest), Asks(op))
    ensures Faithful(s', Snap(st, digest)) && via <= via' <= ViaClassify(st)
    ensures ReadyFor(s', via', st, op, digest)
  {
    s', via' := Loaded(s, Snap(st, digest), Asks(op)), via;
    LoadAgrees(s, Snap(st, digest), Asks(op), Asks(op));
    if op.AssignTaskDirection? {
      LoadedDirection(st, s', op, digest);
      hide Snap, Loaded, AgreeOn, Faithful, Asks, ViaClassify;
      var task := op.task;
      if task in s'.direction && s'.direction[task] == Some(TRIAGE) && st.tasks[task].via == Some(CLASSIFY) {
        via' := via + {task};
      }
    }
  }

  lemma StaysReady(s: Snapshot, via: set<Id>, st: Store, k: Keys, via': set<Id>, op: Op, digest: string -> string)
    requires Faithful(s, Snap(st, digest)) && via <= via' <= ViaClassify(st)
    requires ReadyFor(s, via, st, op, digest)
    ensures ReadyFor(Loaded(s, Snap(st, digest), k), via', st, op, digest)
  {
    LoadAgrees(s, Snap(st, digest), k, Asks(op));
    hide Snap, Loaded, AgreeOn, Faithful, Asks, ViaClassify;
  }

  /** A task's direction has been loaded by the time its parking is looked up. */
  lemma LoadedDirection(st: Store, s: Snapshot, op: Op, digest: string -> string)
    requires op.AssignTaskDirection? && AgreeOn(Asks(op), s, Snap(st, digest))
    ensures op.task in s.direction ==> op.task in st.tasks && s.direction[op.task] == st.tasks[op.task].direction
    ensures op.task in ViaClassify(st) <==>
              op.task in s.direction && s.direction[op.task] == Some(TRIAGE) && st.tasks[op.task].via == Some(CLASSIFY)
  {
  }

  // ------------------------------------------------- what one operation reads

  /** The rows, by table, that checking an operation looks at. */
  datatype Keys = Keys(
    status: set<Id>, direction: set<Id>, parent: set<Id>, weeks: set<Id>, retired: set<Id>, directions: set<Id>,
    reviews: set<Id>)

  const NO_KEYS: Keys := Keys({}, {}, {}, {}, {}, {}, {})

  function Asks(op: Op): Keys {
    match op
    case CreateTask(_, _, parent) => NO_KEYS.(parent := if parent.Some? then {parent.value} else {})
    case TransitionTask(task, _) => NO_KEYS.(status := {task})
    case CreateTasks(week, _) => NO_KEYS.(weeks := {week})
    case ReorderTasks(week, _) => NO_KEYS.(weeks := {week})
    case AdjustRhythm(rhythm, _) => NO_KEYS.(retired := {rhythm})
    case CarryOverTask(task, toWeek) => NO_KEYS.(status := {task}, weeks := {toWeek})
    case AssignTaskDirection(task, direction) =>
      NO_KEYS.(status := {task}, direction := {task}, directions := {direction})
    case DraftReviewBody(review, _, _) => NO_KEYS.(reviews := {review})
    case _ => NO_KEYS
  }

  predicate Same<V(==)>(a: map<Id, V>, b: map<Id, V>, ids: set<Id>) {
    forall id :: id in ids ==> (id in a <==> id in b) && (id in a ==> a[id] == b[id])
  }

  predicate AgreeOn(k: Keys, a: Snapshot, b: Snapshot) {
    && Same(a.status, b.status, k.status)
    && Same(a.direction, b.direction, k.direction)
    && Same(a.parent, b.parent, k.parent)
    && Same(a.weeks, b.weeks, k.weeks)
    && Same(a.retired, b.retired, k.retired)
    && Same(a.directions, b.directions, k.directions)
    && Same(a.reviews, b.reviews, k.reviews)
  }

  predicate Within<V(==)>(a: map<Id, V>, b: map<Id, V>) {
    forall id :: id in a ==> id in b && a[id] == b[id]
  }

  predicate Faithful(a: Snapshot, b: Snapshot) {
    && Within(a.status, b.status) && Within(a.direction, b.direction) && Within(a.parent, b.parent)
    && Within(a.weeks, b.weeks) && Within(a.retired, b.retired) && Within(a.directions, b.directions)
    && Within(a.reviews, b.reviews)
  }

  function Restrict<V>(m: map<Id, V>, ids: set<Id>): map<Id, V> {
    map id | id in ids && id in m :: m[id]
  }

  function Loaded(s: Snapshot, full: Snapshot, k: Keys): Snapshot {
    Snapshot(
      s.status + Restrict(full.status, k.status),
      s.direction + Restrict(full.direction, k.direction),
      s.parent + Restrict(full.parent, k.parent),
      s.weeks + Restrict(full.weeks, k.weeks),
      s.retired + Restrict(full.retired, k.retired),
      s.directions + Restrict(full.directions, k.directions),
      s.reviews + Restrict(full.reviews, k.reviews))
  }

  lemma LoadOne<V>(m: map<Id, V>, full: map<Id, V>, ids: set<Id>, other: set<Id>)
    requires Within(m, full)
    ensures Within(m + Restrict(full, ids), full) && Same(m + Restrict(full, ids), full, ids)
    ensures Same(m, full, other) ==> Same(m + Restrict(full, ids), full, other)
  {
  }

  /** Loading some rows adds only what is there, and forgets nothing. */
  lemma LoadAgrees(s: Snapshot, full: Snapshot, k: Keys, other: Keys)
    requires Faithful(s, full)
    ensures Faithful(Loaded(s, full, k), full) && AgreeOn(k, Loaded(s, full, k), full)
    ensures AgreeOn(other, s, full) ==> AgreeOn(other, Loaded(s, full, k), full)
  {
    hide Within, Same, Restrict;
    LoadOne(s.status, full.status, k.status, other.status);
    LoadOne(s.direction, full.direction, k.direction, other.direction);
    LoadOne(s.parent, full.parent, k.parent, other.parent);
    LoadOne(s.weeks, full.weeks, k.weeks, other.weeks);
    LoadOne(s.retired, full.retired, k.retired, other.retired);
    LoadOne(s.directions, full.directions, k.directions, other.directions);
    LoadOne(s.reviews, full.reviews, k.reviews, other.reviews);
  }

  // --------------------------------------------------------------- applying

  predicate TaskWeekOk(st: Store, task: Id) {
    task in st.tasks && st.tasks[task].week.Some? && st.tasks[task].week.value in st.weeks ==>
      WeekOpen(st.weeks[st.tasks[task].week.value])
  }

  predicate DirectionKnown(st: Store, d: Option<Id>) {
    d.Some? ==> d.value in st.directions
  }

  function FiledVia(d: Option<Id>, source: string): Option<string> {
    if d == Some(TRIAGE) then Some(source) else None
  }

  /** How many rows an operation creates, each under an id minted for it. */
  function Mints(op: Op): nat {
    match op
    case CreateArea(_) => 1
    case CreateTask(_, _, _) => 1
    case CreateDirection(_, _) => 1
    case CreateTasks(_, tasks) => |tasks|
    case CarryOverTask(_, _) => 1
    case _ => 0
  }

  /** Fresh ids: not in use in the store, and no two alike. */
  predicate Fresh(st: Store, op: Op, ids: seq<Id>) {
    && |ids| == Mints(op) && Distinct(ids)
    && (forall i :: 0 <= i < |ids| ==> ids[i] !in st.tasks && ids[i] !in st.directions && ids[i] !in st.areas)
  }

  function NewRows(week: Id, tasks: seq<NewTask>, ids: seq<Id>): map<Id, TaskRow>
    requires |tasks| == |ids|
  {
    if tasks == [] then map[]
    else
      var i, t := |tasks| - 1, tasks[|tasks| - 1];
      NewRows(week, tasks[..i], ids[..i])[ids[i] := TaskRow(Planned, t.directionId, None, Some(week), i, FiledVia(t.directionId, DIRECT))]
  }

  function Renumbered(tasks: map<Id, TaskRow>, week: Id, order: seq<Id>, from: nat): Result<map<Id, TaskRow>, ApplyError>
    decreases |order|
  {
    if order == [] then Ok(tasks)
    else if order[0] in tasks && tasks[order[0]].week == Some(week) then
      Renumbered(tasks[order[0] := tasks[order[0]].(sortKey := from)], week, order[1..], from + 1)
    else Err(NotInWeek(order[0], week))
  }

  function MissingDirection(st: Store, alloc: seq<Alloc>): Option<Id> {
    if alloc == [] then None
    else if alloc[0].direction !in st.directions then Some(alloc[0].direction)
    else MissingDirection(st, alloc[1..])
  }

  function SetStatus(st: Store, task: Id, to: TaskStatus): Result<Store, ApplyError> {
    if task !in st.tasks then Err(NotFound("task", task))
    else if !TaskEdge(st.tasks[task].status, to) then Err(Illegal(st.tasks[task].status, to))
    else Ok(st.(tasks := st.tasks[task := st.tasks[task].(status := to)]))
  }

  function ApplyCarry(st: Store, task: Id, toWeek: Id, id: Id): Result<Store, ApplyError> {
    if !TaskWeekOk(st, task) then Err(TaskWeekClosed(task))
    else if task !in st.tasks then Err(NotFound("task", task))
    else if st.tasks[task].week == Some(toWeek) then Err(SameWeekCarry(task))
    else
      match SetStatus(st, task, CarriedOver)
      case Err(e) => Err(e)
      case Ok(closed) =>
        if toWeek !in st.weeks then Err(ForeignKey)
        else Ok(closed.(tasks := closed.tasks[id := st.tasks[task].(status := Planned, week := Some(toWeek), sortKey := 0)]))
  }

  function ApplyAssign(st: Store, task: Id, direction: Id, source: string): Result<Store, ApplyError> {
    if !TaskWeekOk(st, task) then Err(TaskWeekClosed(task))
    else if task in st.tasks && (st.tasks[task].direction.None? || st.tasks[task].direction == Some(TRIAGE)) then
      if direction !in st.directions then Err(ForeignKey)
      else
        Ok(st.(tasks := st.tasks[task := st.tasks[task].(direction := Some(direction), via := FiledVia(Some(direction), source))]))
    else Err(Conflict(task))
  }

  /** One operation of an accepted proposal, inside the accepting transaction. */
  function Apply(op: Op, st: Store, ids: seq<Id>, source: string): Result<Store, ApplyError>
    requires |ids| == Mints(op)
  {
    match op
    case CreateArea(_) => Ok(st.(areas := st.areas + {ids[0]}))
    case CreateTask(_, d, parent) =>
      if !DirectionKnown(st, d) || (parent.Some? && parent.value !in st.tasks) then Err(ForeignKey)
      else Ok(st.(tasks := st.tasks[ids[0] := TaskRow(Backlog, d, parent, None, 0, FiledVia(d, DIRECT))]))
    case CreateDirection(_, _) => Ok(st.(directions := st.directions[ids[0] := DirDraft]))
    case TransitionTask(task, to) =>
      if !TaskWeekOk(st, task) then Err(TaskWeekClosed(task)) else SetStatus(st, task, to)
    case CreateTasks(week, tasks) =>
      if week !in st.weeks || exists i :: 0 <= i < |tasks| && !DirectionKnown(st, tasks[i].directionId) then Err(ForeignKey)
      else Ok(st.(tasks := st.tasks + NewRows(week, tasks, ids)))
    case ReorderTasks(week, order) =>
      (match Renumbered(st.tasks, week, order, 0)
       case Err(e) => Err(e)
       case Ok(tasks) => Ok(st.(tasks := tasks)))
    case AdjustRhythm(rhythm, alloc) =>
      (match MissingDirection(st, alloc)
       case Some(d) => Err(UnknownDirection(d))
       case None =>
         if rhythm !in st.rhythms then Err(NotFound("rhythm", rhythm))
         else if !RhythmEdge(st.rhythms[rhythm], Adjusted) then Err(Conflict(rhythm))
         else Ok(st.(rhythms := st.rhythms[rhythm := Adjusted])))
    case CarryOverTask(task, toWeek) => ApplyCarry(st, task, toWeek, ids[0])
    case AssignTaskDirection(task, direction) => ApplyAssign(st, task, direction, source)
    case DraftReviewBody(review, _, body) =>
      if review in st.reviews && st.reviews[review].draft then
        Ok(st.(reviews := st.reviews[review := st.reviews[review].(body := body)]))
      else Err(Conflict(review))
  }
}
