/** Validating a batch against an overlay is validating and applying its
    operations one by one against the store itself. */
module GateTheorems {
  import opened Prelude
  import opened Transitions
  import opened Gate
  import opened StoreApply

  // --------------------------------------------- the gate reads only its keys

  ghost predicate AllAgree(ops: seq<Op>, a: Snapshot, b: Snapshot) {
    forall i :: 0 <= i < |ops| ==> AgreeOn(Asks(ops[i]), a, b)
  }

  /** Two accounts of whose proposal it is that no operation can tell apart. */
  ghost predicate SameTerms(op: Op, t: Terms, u: Terms) {
    t.direct == u.direct && t.digest == u.digest
    && (op.AssignTaskDirection? && !t.direct ==> (op.task in t.viaClassify <==> op.task in u.viaClassify))
  }

  lemma CheckLocal(op: Op, a: Snapshot, b: Snapshot, t: Terms, u: Terms)
    requires AgreeOn(Asks(op), a, b) && SameTerms(op, t, u)
    ensures Check(op, a, t) == Check(op, b, u)
  {
    hide Dupes, AllocVerdict, TaskEdge, WeekOpen, Utf8Len, IsLowerHex;
  }

  lemma EffectLocal(op: Op, k: Keys, a: Snapshot, b: Snapshot, t: Terms, u: Terms)
    requires AgreeOn(k, a, b) && AgreeOn(Asks(op), a, b) && t.digest == u.digest
    ensures AgreeOn(k, Effect(op, a, t), Effect(op, b, u))
  {
  }

  lemma {:induction false} InTurnLocal(ops: seq<Op>, a: Snapshot, b: Snapshot, t: Terms, u: Terms)
    requires AllAgree(ops, a, b) && forall i :: 0 <= i < |ops| ==> SameTerms(ops[i], t, u)
    ensures InTurn(ops, a, t).Ok? == InTurn(ops, b, u).Ok?
    ensures InTurn(ops, a, t).Err? ==> InTurn(ops, b, u) == InTurn(ops, a, t)
    decreases |ops|
  {
    if ops != [] {
      var op, rest := ops[0], ops[1..];
      CheckLocal(op, a, b, t, u);
      var a', b' := Effect(op, a, t), Effect(op, b, u);
      forall i | 0 <= i < |rest| ensures AgreeOn(Asks(rest[i]), a', b') && SameTerms(rest[i], t, u) {
        assert rest[i] == ops[i + 1];
        EffectLocal(op, Asks(rest[i]), a, b, t, u);
      }
      hide AgreeOn, SameTerms, Check, Effect;
      InTurnLocal(rest, a', b', t, u);
    }
  }

  /** The rows loaded for a batch are enough: the verdict on them is the verdict
      on the whole store. */
  method ValidateStored(ops: seq<Op>, st: Store, source: string, digest: string -> string) returns (r: Verdict)
    ensures r == Validated(ops, Snap(st, digest), TermsOf(st, source, digest))
  {
    var s, via := BuildSnapshot(st, ops, digest);
    var t := Terms(source == DIRECT, via, digest);
    r := Validate(ops, s, t);
    hide Snap, AgreeOn, ViaClassify, InTurn, Asks;
    InTurnLocal(ops, s, Snap(st, digest), t, TermsOf(st, source, digest));
  }

  // ----------------------------------------------- the overlay tracks the store

  /** Ids minted while applying are not ones the batch mentions. */
  predicate Apart(ids: seq<Id>, k: Keys) {
    forall i :: 0 <= i < |ids| ==> ids[i] !in k.status && ids[i] !in k.direction && ids[i] !in k.parent && ids[i] !in k.directions
  }

  lemma {:induction false} RowsAdded(week: Id, tasks: seq<NewTask>, ids: seq<Id>)
    requires |tasks| == |ids|
    ensures forall id :: id in NewRows(week, tasks, ids) ==> id in ids
    ensures forall id :: id in NewRows(week, tasks, ids) ==> NewRows(week, tasks, ids)[id].status == Planned
  {
    if tasks != [] {
      RowsAdded(week, tasks[..|tasks| - 1], ids[..|tasks| - 1]);
    }
  }

  lemma {:induction false} RenumberedKeeps(tasks: map<Id, TaskRow>, week: Id, order: seq<Id>, from: nat)
    requires Renumbered(tasks, week, order, from).Ok?
    ensures var out := Renumbered(tasks, week, order, from).value;
            out.Keys == tasks.Keys && forall id :: id in tasks ==> out[id] == tasks[id].(sortKey := out[id].sortKey)
    decreases |order|
  {
    if order != [] {
      RenumberedKeeps(tasks[order[0] := tasks[order[0]].(sortKey := from)], week, order[1..], from + 1);
    }
  }

  function StatusAfter(op: Op, id: Id, status: TaskStatus): TaskStatus {
    if op.TransitionTask? && op.task == id then op.to
    else if op.CarryOverTask? && op.task == id then CarriedOver
    else status
  }

  function DirectionAfter(op: Op, id: Id, direction: Option<Id>): Option<Id> {
    if op.AssignTaskDirection? && op.task == id then Some(op.direction) else direction
  }

  /** How applying changes the tasks: minted rows are added, and of the others
      only the one the operation names changes, in the field it is about. */
  ghost predicate TasksFramed(op: Op, a: map<Id, TaskRow>, b: map<Id, TaskRow>, ids: seq<Id>) {
    && (forall id :: id in a ==> id in b)
    && (forall id :: id in b ==> id in a || id in ids)
    && (forall id :: id in a && id !in ids ==>
          && b[id].parent == a[id].parent
          && b[id].status == StatusAfter(op, id, a[id].status)
          && b[id].direction == DirectionAfter(op, id, a[id].direction))
  }

  ghost predicate RestFramed(op: Op, st: Store, st': Store, ids: seq<Id>) {
    && st'.weeks == st.weeks
    && (forall id :: id !in ids ==> (id in st.directions <==> id in st'.directions))
    && (forall id :: id in st.directions && id !in ids ==> st'.directions[id] == st.directions[id])
    && RetiredMap(st'.rhythms) == RetiredMap(st.rhythms)
    && (op.DraftReviewBody? ==>
          op.review in st.reviews && st'.reviews == st.reviews[op.review := st.reviews[op.review].(body := op.body)])
    && (!op.DraftReviewBody? ==> st'.reviews == st.reviews)
  }

  /** Creating rows touches no other row. */
  lemma CreationFrames(op: Op, st: Store, ids: seq<Id>, source: string)
    requires op.CreateTask? || op.CreateTasks?
    requires |ids| == Mints(op) && Apply(op, st, ids, source).Ok?
    ensures TasksFramed(op, st.tasks, Apply(op, st, ids, source).value.tasks, ids)
  {
    hide FiledVia, DirectionKnown;
    if op.CreateTasks? {
      RowsAdded(op.week, op.tasks, ids);
    }
  }

  lemma CarryFrames(op: Op, st: Store, ids: seq<Id>, source: string)
    requires op.CarryOverTask? && |ids| == 1 && Apply(op, st, ids, source).Ok?
    ensures TasksFramed(op, st.tasks, Apply(op, st, ids, source).value.tasks, ids)
  {
    hide TaskWeekOk, TaskEdge;
  }

  lemma ApplyFramesTasks(op: Op, st: Store, ids: seq<Id>, source: string)
    requires |ids| == Mints(op) && Apply(op, st, ids, source).Ok?
    ensures TasksFramed(op, st.tasks, Apply(op, st, ids, source).value.tasks, ids)
  {
    if op.CreateTask? || op.CreateTasks? {
      CreationFrames(op, st, ids, source);
    } else if op.CarryOverTask? {
      CarryFrames(op, st, ids, source);
    } else if op.ReorderTasks? {
      RenumberedKeeps(st.tasks, op.week, op.order, 0);
    } else if op.AssignTaskDirection? {
      hide TaskWeekOk, FiledVia;
    } else {
      hide TaskWeekOk, TaskEdge, MissingDirection, RhythmEdge;
    }
  }

  lemma ApplyFramesRest(op: Op, st: Store, ids: seq<Id>, source: string)
    requires |ids| == Mints(op) && Apply(op, st, ids, source).Ok?
    ensures RestFramed(op, st, Apply(op, st, ids, source).value, ids)
  {
    hide TaskWeekOk, TaskEdge, FiledVia, DirectionKnown, Renumbered, NewRows, MissingDirection;
  }

  lemma StatusTracks(op: Op, a: map<Id, TaskRow>, b: map<Id, TaskRow>, ids: seq<Id>, asked: set<Id>)
    requires TasksFramed(op, a, b, ids) && forall i :: 0 <= i < |ids| ==> ids[i] !in asked
    requires (op.TransitionTask? || op.CarryOverTask?) ==> op.task in a
    ensures op.TransitionTask? ==> Same(StatusMap(a)[op.task := op.to], StatusMap(b), asked)
    ensures op.CarryOverTask? ==> Same(StatusMap(a)[op.task := CarriedOver], StatusMap(b), asked)
    ensures !op.TransitionTask? && !op.CarryOverTask? ==> Same(StatusMap(a), StatusMap(b), asked)
  {
    hide DirectionAfter;
  }

  lemma DirectionTracks(op: Op, a: map<Id, TaskRow>, b: map<Id, TaskRow>, ids: seq<Id>, asked: set<Id>)
    requires TasksFramed(op, a, b, ids) && forall i :: 0 <= i < |ids| ==> ids[i] !in asked
    requires op.AssignTaskDirection? ==> op.task in a
    ensures op.AssignTaskDirection? ==> Same(DirectionMap(a)[op.task := Some(op.direction)], DirectionMap(b), asked)
    ensures !op.AssignTaskDirection? ==> Same(DirectionMap(a), DirectionMap(b), asked)
  {
    hide StatusAfter;
  }

  lemma ParentTracks(op: Op, a: map<Id, TaskRow>, b: map<Id, TaskRow>, ids: seq<Id>, asked: set<Id>)
    requires TasksFramed(op, a, b, ids) && forall i :: 0 <= i < |ids| ==> ids[i] !in asked
    ensures Same(ParentMap(a), ParentMap(b), asked)
  {
    hide StatusAfter, DirectionAfter;
  }

  lemma TasksTrack(op: Op, st: Store, st': Store, ids: seq<Id>, t: Terms, k: Keys)
    requires TasksFramed(op, st.tasks, st'.tasks, ids) && Apart(ids, k)
    requires (op.TransitionTask? || op.CarryOverTask? || op.AssignTaskDirection?) ==> op.task in st.tasks
    ensures var s, s' := Effect(op, Snap(st, t.digest), t), Snap(st', t.digest);
            Same(s.status, s'.status, k.status) && Same(s.direction, s'.direction, k.direction) && Same(s.parent, s'.parent, k.parent)
  {
    StatusTracks(op, st.tasks, st'.tasks, ids, k.status);
    DirectionTracks(op, st.tasks, st'.tasks, ids, k.direction);
    ParentTracks(op, st.tasks, st'.tasks, ids, k.parent);
    hide TasksFramed, Same, StatusMap, DirectionMap, ParentMap, ReviewMap, RetiredMap;
  }

  lemma RestTracks(op: Op, st: Store, st': Store, ids: seq<Id>, t: Terms, k: Keys)
    requires RestFramed(op, st, st', ids) && Apart(ids, k)
    ensures var s, s' := Effect(op, Snap(st, t.digest), t), Snap(st', t.digest);
            && Same(s.weeks, s'.weeks, k.weeks) && Same(s.retired, s'.retired, k.retired)
            && Same(s.directions, s'.directions, k.directions) && Same(s.reviews, s'.reviews, k.reviews)
  {
    hide StatusMap, DirectionMap, ParentMap;
    var s, s' := Effect(op, Snap(st, t.digest), t), Snap(st', t.digest);
    assert s'.reviews == s.reviews by {
      hide Same, Apart, RetiredMap;
    }
  }

  /** What the gate works out for an accepted operation is what applying it does. */
  lemma ApplyTracks(op: Op, st: Store, ids: seq<Id>, source: string, t: Terms, k: Keys)
    requires |ids| == Mints(op) && Apart(ids, k)
    requires Check(op, Snap(st, t.digest), t).Ok? && Apply(op, st, ids, source).Ok?
    ensures AgreeOn(k, Effect(op, Snap(st, t.digest), t), Snap(Apply(op, st, ids, source).value, t.digest))
  {
    ApplyFramesTasks(op, st, ids, source);
    ApplyFramesRest(op, st, ids, source);
    CheckedNames(op, Snap(st, t.digest), t);
    var st' := Apply(op, st, ids, source).value;
    hide Apply, Check, TasksFramed, RestFramed, Apart, Same, Effect;
    TasksTrack(op, st, st', ids, t, k);
    RestTracks(op, st, st', ids, t, k);
  }

  /** An accepted operation names entities that exist. */
  lemma CheckedNames(op: Op, s: Snapshot, t: Terms)
    requires Check(op, s, t).Ok?
    ensures op.TransitionTask? ==> op.task in s.status && TaskEdge(s.status[op.task], op.to)
    ensures op.CarryOverTask? ==> op.task in s.status && TaskEdge(s.status[op.task], CarriedOver)
    ensures op.AssignTaskDirection? ==>
              op.task in s.direction && op.task in s.status && !TaskTerminal(s.status[op.task])
              && (s.direction[op.task].None? || (s.direction[op.task] == Some(TRIAGE) && op.direction != TRIAGE))
    ensures op.DraftReviewBody? ==> op.review in s.reviews && s.reviews[op.review].draft
    ensures op.AdjustRhythm? ==> op.rhythm in s.retired && !s.retired[op.rhythm]
  {
  }

  // ---------------------------------------- the overlay is the sequential truth

  /** What becomes of a batch checked and applied one operation at a time, each
      operation checked against the store the ones before it really left. */
  datatype Outcome = Applied(store: Store) | Refused(why: ProposalError) | Failed(error: ApplyError)

  ghost predicate Minted(ops: seq<Op>, mint: seq<seq<Id>>) {
    |mint| == |ops| && forall i :: 0 <= i < |ops| ==> |mint[i]| == Mints(ops[i])
  }

  function Stepwise(ops: seq<Op>, st: Store, mint: seq<seq<Id>>, source: string, t: Terms): Outcome
    requires |mint| == |ops| && forall i :: 0 <= i < |ops| ==> |mint[i]| == Mints(ops[i])
    decreases |ops|
  {
    if ops == [] then Applied(st)
    else
      match Check(ops[0], Snap(st, t.digest), t)
      case Err(e) => Refused(e)
      case Ok(_) =>
        match Apply(ops[0], st, mint[0], source)
        case Err(e) => Failed(e)
        case Ok(next) => Stepwise(ops[1..], next, mint[1..], source, t)
  }

  /** No operation of the batch mentions an id minted while it is applied. */
  ghost predicate AllApart(ops: seq<Op>, mint: seq<seq<Id>>) {
    forall i, j :: 0 <= i < |mint| && 0 <= j < |ops| ==> Apart(mint[i], Asks(ops[j]))
  }

  lemma AgreeTransfers(ops: seq<Op>, s: Snapshot, st: Store, ids: seq<Id>, source: string, t: Terms)
    requires ops != [] && |ids| == Mints(ops[0]) && AllAgree(ops, s, Snap(st, t.digest))
    requires Check(ops[0], Snap(st, t.digest), t).Ok? && Apply(ops[0], st, ids, source).Ok?
    requires forall j :: 0 <= j < |ops| ==> Apart(ids, Asks(ops[j]))
    ensures AllAgree(ops[1..], Effect(ops[0], s, t), Snap(Apply(ops[0], st, ids, source).value, t.digest))
  {
    var full, st', rest := Snap(st, t.digest), Apply(ops[0], st, ids, source).value, ops[1..];
    forall i | 0 <= i < |rest| ensures AgreeOn(Asks(rest[i]), Effect(ops[0], s, t), Snap(st', t.digest)) {
      assert rest[i] == ops[i + 1];
      EffectLocal(ops[0], Asks(rest[i]), s, full, t, t);
      ApplyTracks(ops[0], st, ids, source, t, Asks(rest[i]));
      AgreeChains(Asks(rest[i]), Effect(ops[0], s, t), Effect(ops[0], full, t), Snap(st', t.digest));
    }
  }

  lemma AgreeChains(k: Keys, a: Snapshot, b: Snapshot, c: Snapshot)
    requires AgreeOn(k, a, b) && AgreeOn(k, b, c)
    ensures AgreeOn(k, a, c)
  {
  }

  /** Errors of applying that only repeat what the gate has already decided. */
  predicate Redundant(e: ApplyError) {
    e.Illegal? || e.Conflict? || e.NotFound?
  }

  /** The re-checks under the write lock never fire on what the gate accepted. */
  lemma RecheckNeverFires(op: Op, st: Store, ids: seq<Id>, source: string, t: Terms)
    requires |ids| == Mints(op) && Check(op, Snap(st, t.digest), t).Ok? && Apply(op, st, ids, source).Err?
    ensures !Redundant(Apply(op, st, ids, source).error)
  {
    CheckedNames(op, Snap(st, t.digest), t);
    hide Check;
    if op.AdjustRhythm? {
      assert RetiredMap(st.rhythms)[op.rhythm] == false;
    } else if op.ReorderTasks? {
      RenumberedFails(st.tasks, op.week, op.order, 0);
    }
  }

  lemma {:induction false} RenumberedFails(tasks: map<Id, TaskRow>, week: Id, order: seq<Id>, from: nat)
    ensures Renumbered(tasks, week, order, from).Err? ==> Renumbered(tasks, week, order, from).error.NotInWeek?
    decreases |order|
  {
    if order != [] && order[0] in tasks {
      RenumberedFails(tasks[order[0] := tasks[order[0]].(sortKey := from)], week, order[1..], from + 1);
    }
  }

  lemma {:induction false} StepwiseAgrees(ops: seq<Op>, s: Snapshot, st: Store, mint: seq<seq<Id>>, source: string, t: Terms)
    requires Minted(ops, mint) && AllApart(ops, mint) && AllAgree(ops, s, Snap(st, t.digest))
    ensures var out := Stepwise(ops, st, mint, source, t);
            && (out.Refused? ==> InTurn(ops, s, t) == Err(out.why))
            && (out.Applied? ==> InTurn(ops, s, t).Ok?)
            && (out.Failed? ==> !Redundant(out.error))
    decreases |ops|
  {
    if ops != [] {
      CheckLocal(ops[0], s, Snap(st, t.digest), t, t);
      if Check(ops[0], s, t).Ok? && Apply(ops[0], st, mint[0], source).Err? {
        RecheckNeverFires(ops[0], st, mint[0], source, t);
      }
      if Check(ops[0], s, t).Ok? && Apply(ops[0], st, mint[0], source).Ok? {
        AgreeTransfers(ops, s, st, mint[0], source, t);
        var rest, more := ops[1..], mint[1..];
        assert forall i :: 0 <= i < |rest| ==> rest[i] == ops[i + 1] && more[i] == mint[i + 1];
        hide Check, Apply, Effect, Snap, Asks, Apart, Mints, AgreeOn;
        StepwiseAgrees(rest, Effect(ops[0], s, t), Apply(ops[0], st, mint[0], source).value, more, source, t);
      }
    }
  }

  /** The gate's verdict on a batch is the verdict of checking each operation
      against the store the earlier ones left, with the same first error, unless
      the store refuses one of them for a relation the gate does not look at. */
  lemma OverlayIsSequential(ops: seq<Op>, st: Store, mint: seq<seq<Id>>, source: string, t: Terms)
    requires ops != [] && Minted(ops, mint) && AllApart(ops, mint)
    ensures var out, verdict := Stepwise(ops, st, mint, source, t), Validated(ops, Snap(st, t.digest), t);
            && (out.Refused? ==> verdict == Err(out.why))
            && (out.Applied? ==> verdict == Ok(()))
            && (verdict.Ok? ==> out.Applied? || out.Failed?)
            && (verdict.Err? ==> out == Refused(verdict.error) || out.Failed?)
            && (out.Failed? ==> !Redundant(out.error))
  {
    forall i | 0 <= i < |ops| ensures AgreeOn(Asks(ops[i]), Snap(st, t.digest), Snap(st, t.digest)) { }
    StepwiseAgrees(ops, Snap(st, t.digest), st, mint, source, t);
  }

  /** A batch passes exactly if its first half passes and its second half passes
      on the state the first half leaves; the first error is the same too. */
  lemma {:induction false} InTurnConcat(a: seq<Op>, b: seq<Op>, s: Snapshot, t: Terms)
    ensures InTurn(a + b, s, t) == match InTurn(a, s, t) case Err(e) => Err(e) case Ok(mid) => InTurn(b, mid, t)
    decreases |a|
  {
    if a == [] {
      assert a + b == b;
    } else {
      assert (a + b)[0] == a[0] && (a + b)[1..] == a[1..] + b;
      hide Check, Effect;
      InTurnConcat(a[1..], b, Effect(a[0], s, t), t);
    }
  }

  lemma ValidateConcat(a: seq<Op>, b: seq<Op>, s: Snapshot, t: Terms)
    requires a != [] && b != []
    ensures InTurn(a, s, t).Ok? ==> Validated(a + b, s, t) == Validated(b, InTurn(a, s, t).value, t)
    ensures InTurn(a, s, t).Err? ==> Validated(a + b, s, t) == Validated(a, s, t) == Err(InTurn(a, s, t).error)
    ensures Validated(a, s, t).Ok? <==> InTurn(a, s, t).Ok?
  {
    InTurnConcat(a, b, s, t);
  }
}
