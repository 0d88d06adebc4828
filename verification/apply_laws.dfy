/** What accepting each operation writes, read off the tables before and after. */
module ApplyLaws {
  import opened Prelude
  import opened Transitions
  import opened Gate
  import opened GateMeaning
  import opened StoreApply

  /** The task's week, if it has one that is known, is still open. */
  predicate WeekLets(st: Store, task: Id) {
    task in st.tasks && st.tasks[task].week.Some? && st.tasks[task].week.value in st.weeks ==>
      st.weeks[st.tasks[task].week.value] in {Planning, WeekActive}
  }

  predicate Known(st: Store, d: Option<Id>) {
    d.Some? ==> d.value in st.directions
  }

  /** Who a task was parked by, if it is parked. */
  function Parker(d: Option<Id>, who: string): Option<string> {
    if d == Some("sin90-triage") then Some(who) else None
  }

  /** Only these task rows differ. */
  predicate OthersKept(a: map<Id, TaskRow>, b: map<Id, TaskRow>, ids: set<Id>) {
    && (forall id :: id in a ==> id in b) && (forall id :: id in b ==> id in a || id in ids)
    && (forall id :: id in a && id !in ids ==> b[id] == a[id])
  }

  /** A status change is written if it is a legal move of a task whose week lets it,
      and changes the status alone. */
  lemma MoveWrites(st: Store, task: Id, to: TaskStatus, source: string)
    ensures var out := Apply(TransitionTask(task, to), st, [], source);
            && (out.Ok? <==> WeekLets(st, task) && task in st.tasks && (st.tasks[task].status, to) in MOVES)
            && (out.Ok? ==>
                  && out.value == st.(tasks := out.value.tasks) && OthersKept(st.tasks, out.value.tasks, {task})
                  && out.value.tasks[task] == st.tasks[task].(status := to))
            && (out.Err? ==> out.error == (if !WeekLets(st, task) then TaskWeekClosed(task)
                                           else if task !in st.tasks then NotFound("task", task) else Illegal(st.tasks[task].status, to)))
  {
    hide TaskEdge;
    if task in st.tasks {
      EdgeMoves(st.tasks[task].status, to);
      EdgeIs(st.tasks[task].status, to);
    }
  }

  lemma EdgeIs(from: TaskStatus, to: TaskStatus)
    ensures TaskEdge(from, to) <==> (from, to) in MOVES
  {
  }

  /** Carrying a task over closes it where it was and puts a planned copy, with its
      direction and parent, into the target week. */
  lemma CarryWrites(st: Store, task: Id, toWeek: Id, id: Id, source: string)
    requires id !in st.tasks
    ensures var out := Apply(CarryOverTask(task, toWeek), st, [id], source);
            && (out.Ok? <==>
                  && WeekLets(st, task) && task in st.tasks && st.tasks[task].week != Some(toWeek)
                  && st.tasks[task].status in {Planned, InProgress} && toWeek in st.weeks)
            && (out.Ok? ==>
                  && out.value == st.(tasks := out.value.tasks) && OthersKept(st.tasks, out.value.tasks, {task, id})
                  && id in out.value.tasks
                  && out.value.tasks[task] == st.tasks[task].(status := CarriedOver)
                  && out.value.tasks[id].status == Planned && out.value.tasks[id].week == Some(toWeek)
                  && out.value.tasks[id].direction == st.tasks[task].direction && out.value.tasks[id].parent == st.tasks[task].parent
                  && out.value.tasks[id].via == st.tasks[task].via && out.value.tasks[id].sortKey == 0)
  {
    if task in st.tasks {
      EdgeIs(st.tasks[task].status, CarriedOver);
    }
    hide TaskEdge;
  }

  /** A task assigned a direction changes in that alone, and remembers who parked it. */
  lemma AssignWrites(st: Store, task: Id, direction: Id, source: string)
    ensures var out := Apply(AssignTaskDirection(task, direction), st, [], source);
            && (out.Ok? <==>
                  && WeekLets(st, task) && task in st.tasks && st.tasks[task].direction in {None, Some("sin90-triage")}
                  && direction in st.directions)
            && (out.Ok? ==>
                  && out.value == st.(tasks := out.value.tasks) && OthersKept(st.tasks, out.value.tasks, {task})
                  && out.value.tasks[task] == st.tasks[task].(direction := Some(direction), via := Parker(Some(direction), source)))
  {
  }

  lemma {:induction false} RowsWritten(week: Id, tasks: seq<NewTask>, ids: seq<Id>, i: nat)
    requires |tasks| == |ids| && Distinct(ids) && i < |ids|
    ensures ids[i] in NewRows(week, tasks, ids)
    ensures NewRows(week, tasks, ids)[ids[i]] ==
              TaskRow(Planned, tasks[i].directionId, None, Some(week), i, Parker(tasks[i].directionId, "direct"))
  {
    var last := |tasks| - 1;
    if i < last {
      RowsWritten(week, tasks[..last], ids[..last], i);
    }
  }

  lemma {:induction false} OnlyRowsWritten(week: Id, tasks: seq<NewTask>, ids: seq<Id>)
    requires |tasks| == |ids|
    ensures forall id :: id in NewRows(week, tasks, ids) ==> id in ids
  {
    if tasks != [] {
      OnlyRowsWritten(week, tasks[..|tasks| - 1], ids[..|tasks| - 1]);
    }
  }

  /** New tasks of a week are planned in it, in the order they were proposed, each
      with its own direction. */
  lemma CreationWrites(st: Store, week: Id, tasks: seq<NewTask>, ids: seq<Id>, source: string)
    requires |tasks| == |ids| && Distinct(ids) && forall i :: 0 <= i < |ids| ==> ids[i] !in st.tasks
    ensures var out := Apply(CreateTasks(week, tasks), st, ids, source);
            && (out.Ok? <==> week in st.weeks && forall i :: 0 <= i < |tasks| ==> Known(st, tasks[i].directionId))
            && (out.Ok? ==>
                  && out.value == st.(tasks := out.value.tasks) && OthersKept(st.tasks, out.value.tasks, set id | id in ids)
                  && forall i :: 0 <= i < |ids| ==>
                       ids[i] in out.value.tasks
                       && out.value.tasks[ids[i]] ==
                            TaskRow(Planned, tasks[i].directionId, None, Some(week), i, Parker(tasks[i].directionId, "direct")))
  {
    hide NewRows, FiledVia, Parker;
    OnlyRowsWritten(week, tasks, ids);
    forall i | 0 <= i < |ids|
      ensures ids[i] in NewRows(week, tasks, ids)
      ensures NewRows(week, tasks, ids)[ids[i]] ==
                TaskRow(Planned, tasks[i].directionId, None, Some(week), i, Parker(tasks[i].directionId, "direct"))
    {
      RowsWritten(week, tasks, ids, i);
    }
    assert forall i :: 0 <= i < |tasks| ==> (Known(st, tasks[i].directionId) <==> DirectionKnown(st, tasks[i].directionId));
  }

  lemma {:induction false} PlacesWritten(tasks: map<Id, TaskRow>, week: Id, order: seq<Id>, from: nat)
    ensures var out := Renumbered(tasks, week, order, from);
            && (out.Ok? <==> forall i :: 0 <= i < |order| ==> order[i] in tasks && tasks[order[i]].week == Some(week))
            && (out.Ok? ==>
                  && out.value.Keys == tasks.Keys
                  && (forall id :: id in tasks ==> out.value[id] == tasks[id].(sortKey := out.value[id].sortKey))
                  && (forall id :: id in tasks && id !in order ==> out.value[id] == tasks[id])
                  && (Distinct(order) ==> forall i :: 0 <= i < |order| ==> order[i] in tasks && out.value[order[i]].sortKey == from + i))
    decreases |order|
  {
    if order != [] && order[0] in tasks && tasks[order[0]].week == Some(week) {
      var next, rest := tasks[order[0] := tasks[order[0]].(sortKey := from)], order[1..];
      PlacesWritten(next, week, rest, from + 1);
      assert forall i :: 0 < i < |order| ==> order[i] == rest[i - 1];
      assert forall i :: 0 <= i < |rest| ==> rest[i] == order[i + 1];
      if Distinct(order) {
        assert order[0] !in rest && Distinct(rest);
      }
    }
  }

  /** A reorder gives the listed tasks, all of that week, their places in the list
      and changes nothing else about any task. */
  lemma ReorderWrites(st: Store, week: Id, order: seq<Id>, source: string)
    requires Distinct(order)
    ensures var out := Apply(ReorderTasks(week, order), st, [], source);
            && (out.Ok? <==> forall i :: 0 <= i < |order| ==> order[i] in st.tasks && st.tasks[order[i]].week == Some(week))
            && (out.Ok? ==>
                  && out.value == st.(tasks := out.value.tasks) && out.value.tasks.Keys == st.tasks.Keys
                  && (forall id :: id in st.tasks && id !in order ==> out.value.tasks[id] == st.tasks[id])
                  && (forall i :: 0 <= i < |order| ==> out.value.tasks[order[i]] == st.tasks[order[i]].(sortKey := i)))
  {
    PlacesWritten(st.tasks, week, order, 0);
    hide Renumbered;
  }

  lemma {:induction false} MissingIs(st: Store, alloc: seq<Alloc>)
    ensures MissingDirection(st, alloc).None? <==> forall i :: 0 <= i < |alloc| ==> alloc[i].direction in st.directions
    ensures MissingDirection(st, alloc).Some? ==> MissingDirection(st, alloc).value !in st.directions
  {
    if alloc != [] {
      MissingIs(st, alloc[1..]);
      assert forall i :: 0 < i < |alloc| ==> alloc[i] == alloc[1..][i - 1];
    }
  }

  /** The other operations: an area, an inbox task, a draft direction, an adjusted
      rhythm, a new body of a draft review. */
  lemma OthersWrite(op: Op, st: Store, ids: seq<Id>, source: string)
    requires |ids| == Mints(op)
    ensures var out := Apply(op, st, ids, source);
            && (op.CreateArea? ==> out == Ok(st.(areas := st.areas + {ids[0]})))
            && (op.CreateDirection? ==> out == Ok(st.(directions := st.directions[ids[0] := DirDraft])))
            && (op.CreateTask? ==>
                  && (out.Ok? <==> Known(st, op.directionId) && (op.parent.Some? ==> op.parent.value in st.tasks))
                  && (out.Ok? ==>
                        out.value == st.(tasks := st.tasks[ids[0] := TaskRow(Backlog, op.directionId, op.parent, None, 0,
                                                                             Parker(op.directionId, "direct"))])))
            && (op.AdjustRhythm? ==>
                  && (out.Ok? <==>
                        && (forall i :: 0 <= i < |op.alloc| ==> op.alloc[i].direction in st.directions)
                        && op.rhythm in st.rhythms && st.rhythms[op.rhythm] != Retired)
                  && (out.Ok? ==> out.value == st.(rhythms := st.rhythms[op.rhythm := Adjusted])))
            && (op.DraftReviewBody? ==>
                  && (out.Ok? <==> op.review in st.reviews && st.reviews[op.review].draft)
                  && (out.Ok? ==> out.value == st.(reviews := st.reviews[op.review := ReviewRow(true, op.body)])))
  {
    if op.AdjustRhythm? {
      MissingIs(st, op.alloc);
    }
    hide MissingDirection, NewRows, Renumbered, TaskWeekOk, SetStatus;
  }

  /** Whose say the parking bit is: a task counts as the classifier's exactly if it is
      parked and was parked by it; and a proposal is the user's own only by its name. */
  lemma ParkedAre(st: Store, source: string, digest: string -> string, task: Id)
    ensures var t := TermsOf(st, source, digest);
            && (t.direct <==> source == "direct") && t.digest == digest
            && (task in t.viaClassify <==>
                  task in st.tasks && st.tasks[task].direction == Some("sin90-triage") && st.tasks[task].via == Some("classify"))
  {
    assert task in ViaClassify(st) <==> task in st.tasks && ParkedByClassify(st.tasks[task]);
  }
}
