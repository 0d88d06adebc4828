/** What every run of the pump protocol keeps, and what follows from it: no
    update is lost, no Review is remembered twice, no stale intent is queued. */
module ProtocolSafety {
  import opened Prelude
  import opened KernelKey
  import opened Outbox
  import opened Protocol

  // --------------------------------------------------------- environment steps

  /** What any environment step may do to the table: overwrite live rows as
      fresh pending ones with a higher version, or append. */
  ghost predicate Grown(rows: seq<Row>, rows': seq<Row>) {
    && |rows| <= |rows'|
    && (forall i :: 0 <= i < |rows| ==>
          || rows'[i] == rows[i]
          || (Live(rows[i]) && rows'[i] == Overwritten(rows[i], rows'[i].payload)))
    && (forall i :: |rows| <= i < |rows'| ==> rows'[i].status.Pending?)
  }

  lemma UpsertGrows(rows: seq<Row>, d: DedupKey, p: Payload)
    requires UniqueLive(rows)
    ensures Grown(rows, UpsertOutbox(rows, d, p))
  {
    UpsertOutboxEffect(rows, d, p);
  }

  /** Others only ever append to the memory log, and never with a marker. */
  ghost predicate MoreForeign(a: seq<Memory>, b: seq<Memory>) {
    b == a || (|b| == |a| + 1 && b[..|a|] == a && b[|a|].marker.None?)
  }

  lemma EnvFrame(w: World, e: Event)
    requires StoreInv(w) && IsEnv(e)
    ensures var w' := EnvStep(w, e);
            && StoreInv(w') && Grown(w.rows, w'.rows)
            && MoreForeign(w.memories, w'.memories)
            && (forall p: Payload :: KernelHolds(w'.scheds, p) <==> KernelHolds(w.scheds, p))
  {
    match e
    case Create(id, cron, tz) =>
      RoutineWritesKeepInv(w, id, cron, tz, Active);
      UpsertGrows(w.rows, RoutineDedup(id), Desired(CreateRoutine(w, id, cron, tz).routines, id));
    case Update(id, cron, tz) =>
      RoutineWritesKeepInv(w, id, cron, tz, Active);
      UpsertGrows(w.rows, RoutineDedup(id), Desired(UpdateRoutine(w, id, cron, tz).routines, id));
    case Transition(id, to) =>
      RoutineWritesKeepInv(w, id, "", "", to);
      UpsertGrows(w.rows, RoutineDedup(id), Desired(TransitionRoutine(w, id, to).routines, id));
    case Finalize(review, blank, summary) =>
      OtherWritesKeepInv(w, review, blank, summary);
      UpsertGrows(w.rows, ReviewDedup(review), Remember(ReviewDedup(review), summary));
    case Other(name, recognized) =>
      OtherWritesKeepInv(w, name, recognized, "");
      UpsertGrows(w.rows, OtherDedup(name), if recognized then Malformed else Unrecognized);
    case FixUpsert(id) =>
      CorrectionsKeepInv(w, id, "");
      UpsertGrows(w.rows, RoutineDedup(id), Desired(w.routines, id));
    case FixDelete(key) =>
      KeyRoundTrip("", key);
      CorrectionsKeepInv(w, RecoveredId(key), key);
      UpsertGrows(w.rows, RoutineDedup(RecoveredId(key)), Delete(key));
    case _ =>
  }

  /** A Routine write leaves a pending row behind; every other step leaves the
      Routine table alone. */
  lemma EnvSettled(w: World, e: Event)
    requires StoreInv(w) && Settled(w) && IsEnv(e)
    ensures Settled(EnvStep(w, e))
  {
    EnvFrame(w, e);
    var w' := EnvStep(w, e);
    forall id | id in w'.routines
      ensures HasLive(w'.rows, RoutineDedup(id)) || KernelHolds(w'.scheds, Desired(w'.routines, id))
    {
      var d := RoutineDedup(id);
      if HasLive(w.rows, d) {
        GrownHasLive(w.rows, w'.rows, d);
      } else if Desired(w'.routines, id) != Desired(w.routines, id) || id !in w.routines {
        UpsertOutboxEffect(w.rows, d, Desired(w'.routines, id));
        PendingIsLive(w'.rows, d);
      }
    }
  }

  lemma PendingIsLive(rows: seq<Row>, d: DedupKey)
    requires HasPending(rows, d)
    ensures HasLive(rows, d)
  {
    var k :| 0 <= k < |rows| && rows[k].dedup == d && rows[k].status.Pending?;
    assert LiveFor(rows[k], d);
  }

  lemma GrownHasLive(rows: seq<Row>, rows': seq<Row>, d: DedupKey)
    requires Grown(rows, rows') && HasLive(rows, d)
    ensures HasLive(rows', d)
  {
    var k :| 0 <= k < |rows| && LiveFor(rows[k], d);
    assert LiveFor(rows'[k], d);
  }

  lemma GrownSnap(rows: seq<Row>, rows': seq<Row>, s: Snap)
    requires Grown(rows, rows') && ReviewsKept(rows, rows') && SnapOk(rows, s)
    ensures SnapOk(rows', s)
    ensures rows[s.id].status.Pending? ==> rows'[s.id].status.Pending?
  {
  }

  lemma GrownTodo(rows: seq<Row>, rows': seq<Row>, todo: seq<Snap>)
    requires Grown(rows, rows') && ReviewsKept(rows, rows') && TodoOk(rows, todo)
    ensures TodoOk(rows', todo)
  {
    forall k | 0 <= k < |todo| ensures SnapOk(rows', todo[k]) {
      GrownSnap(rows, rows', todo[k]);
    }
  }

  lemma EnvKeepsInv(st: State, e: Event)
    requires Inv(st) && IsEnv(e)
    ensures Inv(st.(w := EnvStep(st.w, e)))
  {
    var w, w' := st.w, EnvStep(st.w, e);
    EnvFrame(w, e);
    EnvSettled(w, e);
    EnvRemembered(w, w');
    EnvKeepsReviews(w, e);
    EnvPump(st, w');
  }

  /** A Review's row, once written, is written by nobody but the pump. */
  ghost predicate ReviewsKept(rows: seq<Row>, rows': seq<Row>) {
    |rows| <= |rows'| && forall i :: 0 <= i < |rows| && rows[i].dedup.ReviewDedup? ==> rows'[i] == rows[i]
  }

  lemma OtherKeysKeepReviews(w: World, w': World, d: DedupKey, p: Payload)
    requires UniqueLive(w.rows) && ReviewInv(w) && !d.ReviewDedup?
    requires w'.rows == UpsertOutbox(w.rows, d, p) && w'.finalized == w.finalized && w'.memories == w.memories
    ensures ReviewInv(w') && ReviewsKept(w.rows, w'.rows)
  {
    UpsertOutboxEffect(w.rows, d, p);
    hide UpsertOutbox, UniqueLive;
    forall i | 0 <= i < |w'.rows| && w'.rows[i].dedup.ReviewDedup? ensures i < |w.rows| && w'.rows[i] == w.rows[i] { }
    forall k, i | 0 <= k < |w'.memories| && 0 <= i < |w'.rows| && w'.memories[k].marker == Some(w'.rows[i].dedup)
      ensures w'.rows[i].payload == Remember(w'.rows[i].dedup, w'.memories[k].text)
    {
      assert w'.rows[i].dedup.ReviewDedup?;
    }
  }

  lemma FinalizeKeepsReviews(w: World, review: string, blank: bool, summary: string)
    requires UniqueLive(w.rows) && ReviewInv(w)
    ensures var w' := FinalizeReview(w, review, blank, summary); ReviewInv(w') && ReviewsKept(w.rows, w'.rows)
  {
    var w', d := FinalizeReview(w, review, blank, summary), ReviewDedup(review);
    if review !in w.finalized && !blank {
      UpsertOutboxEffect(w.rows, d, Remember(d, summary));
      assert forall i :: 0 <= i < |w.rows| ==> w.rows[i].dedup != d;
      hide UpsertOutbox, UniqueLive;
      assert forall i :: 0 <= i < |w.rows| ==> w'.rows[i] == w.rows[i];
      assert forall k :: 0 <= k < |w.memories| ==> w.memories[k].marker != Some(d);
    }
  }

  lemma EnvKeepsReviews(w: World, e: Event)
    requires StoreInv(w) && ReviewInv(w) && IsEnv(e)
    ensures ReviewInv(EnvStep(w, e)) && ReviewsKept(w.rows, EnvStep(w, e).rows)
  {
    var w' := EnvStep(w, e);
    hide Desired, RoutineKey, LiveRowsCurrent, RowsFit;
    match e
    case Create(id, _, _) => if w' != w { OtherKeysKeepReviews(w, w', RoutineDedup(id), Desired(w'.routines, id)); }
    case Update(id, _, _) => if w' != w { OtherKeysKeepReviews(w, w', RoutineDedup(id), Desired(w'.routines, id)); }
    case Transition(id, _) => if w' != w { OtherKeysKeepReviews(w, w', RoutineDedup(id), Desired(w'.routines, id)); }
    case Finalize(review, blank, summary) => FinalizeKeepsReviews(w, review, blank, summary);
    case Other(name, recognized) => OtherKeysKeepReviews(w, w', OtherDedup(name), if recognized then Malformed else Unrecognized);
    case FixUpsert(id) => if w' != w { OtherKeysKeepReviews(w, w', RoutineDedup(id), Desired(w.routines, id)); }
    case FixDelete(key) => if w' != w { OtherKeysKeepReviews(w, w', RoutineDedup(RecoveredId(key)), Delete(key)); }
    case _ =>
  }

  /** Nobody else writes a memory with a marker, so nothing remembered is lost. */
  lemma EnvRemembered(w: World, w': World)
    requires MarkersUnique(w.memories) && DoneRemembered(w) && Grown(w.rows, w'.rows)
    requires MoreForeign(w.memories, w'.memories)
    ensures MarkersUnique(w'.memories) && DoneRemembered(w')
    ensures forall d :: Remembered(w'.memories, d) <==> Remembered(w.memories, d)
  {
    forall d | Remembered(w.memories, d) ensures Remembered(w'.memories, d) {
      var i :| 0 <= i < |w.memories| && w.memories[i].marker == Some(d);
      assert w'.memories[i].marker == Some(d);
    }
    forall i | 0 <= i < |w'.rows| && w'.rows[i].status.Done? && w'.rows[i].dedup.ReviewDedup?
      ensures Names(w'.memories, w'.rows[i].ref, w'.rows[i].dedup)
    {
      assert w'.rows[i] == w.rows[i];
    }
  }

  lemma EnvPump(st: State, w': World)
    requires PumpOk(st) && Grown(st.w.rows, w'.rows) && ReviewsKept(st.w.rows, w'.rows)
    requires MoreForeign(st.w.memories, w'.memories)
    requires forall d :: Remembered(w'.memories, d) <==> Remembered(st.w.memories, d)
    requires forall p: Payload :: KernelHolds(w'.scheds, p) <==> KernelHolds(st.w.scheds, p)
    ensures PumpOk(st.(w := w'))
  {
    var w := st.w;
    hide Grown, KernelHolds, SnapOk, ReviewsKept;
    match st.pump
    case Idle =>
    case Stopped =>
    case Batch(todo) => GrownTodo(w.rows, w'.rows, todo);
    case Calling(s, todo, _) => GrownSnap(w.rows, w'.rows, s); GrownTodo(w.rows, w'.rows, todo);
    case Recalling(s, todo, _, _) => GrownSnap(w.rows, w'.rows, s); GrownTodo(w.rows, w'.rows, todo);
    case Concluded(s, todo, _) => GrownSnap(w.rows, w'.rows, s); GrownTodo(w.rows, w'.rows, todo);
    case Remembering(s, todo, _) => GrownSnap(w.rows, w'.rows, s); GrownTodo(w.rows, w'.rows, todo);
  }

  // ---------------------------------------------------------------- pump steps

  predicate IsPump(e: Event) {
    e.ReadBatch? || e.Begin? || e.Land? || e.RecallPage? || e.Answer?
  }

  lemma ReadKeepsInv(st: State, now: int)
    requires Inv(st) && Enabled(st, ReadBatch(now))
    ensures Inv(Step(st, ReadBatch(now)))
  {
    hide Settled, MarkersUnique, DoneRemembered, ReviewInv, LiveRowsCurrent, UniqueLive;
    var todo := DueFrom(st.w.rows, 0, now);
    forall k | 0 <= k < |todo| ensures SnapOk(st.w.rows, todo[k]) {
      assert PayloadFits(st.w.rows[todo[k].id].dedup, st.w.rows[todo[k].id].payload);
    }
  }

  lemma TodoSplits(rows: seq<Row>, all: seq<Snap>)
    requires TodoOk(rows, all) && all != []
    ensures SnapOk(rows, all[0]) && TodoOk(rows, all[1..]) && forall k :: 0 <= k < |all| - 1 ==> all[0].id < all[1..][k].id
  {
    hide SnapOk;
    var todo := all[1..];
    assert forall k :: 0 <= k < |todo| ==> todo[k] == all[k + 1];
  }

  lemma BeginKeepsInv(st: State, now: int)
    requires Inv(st) && Enabled(st, Begin(now))
    ensures Inv(Step(st, Begin(now)))
  {
    var s, todo := st.pump.todo[0], st.pump.todo[1..];
    TodoSplits(st.w.rows, st.pump.todo);
    hide KernelHolds, Settled, UniqueLive, Remembered, Names, MarkersUnique, DoneRemembered, ReviewInv;
    if IsCurrent(st.w.rows, s.id, s.version) && (s.payload.Malformed? || s.payload.Unrecognized?) {
      assert s.dedup.OtherDedup?;
      var rows' := Step(st, Begin(now)).w.rows;
      assert OnlyRow(st.w.rows, rows', s.id) && UniqueLive(rows') && RowsFit(rows');
      OnlyRowTodo(st.w.rows, rows', s.id, todo);
      OnlyRowSettled(st.w, rows', s.id);
      OnlyRowReviews(st.w, rows', s.id);
    }
  }

  /** Executing a call changes the kernel under one key, and that key's Routine
      still has a pending row: every settled Routine stays settled. */
  lemma CallLands(st: State)
    requires Inv(st) && st.pump.Calling?
    ensures var s := st.pump.snap;
            Inv(st.(w := st.w.(scheds := KernelApply(st.w.scheds, s.payload)), pump := Calling(s, st.pump.todo, true)))
  {
    hide UniqueLive, RowsFit, MarkersUnique, TodoOk;
    var s, scheds := st.pump.snap, KernelApply(st.w.scheds, st.pump.snap.payload);
    forall id | id in st.w.routines && !HasLive(st.w.rows, RoutineDedup(id))
      ensures KernelHolds(scheds, Desired(st.w.routines, id))
    {
      assert LiveFor(st.w.rows[s.id], s.dedup);
      assert id != s.dedup.id;
      if RoutineKey(id) == RoutineKey(s.dedup.id) {
        RoutineKeyInjective(id, s.dedup.id);
      }
    }
  }

  lemma MemoryLands(st: State)
    requires Inv(st) && st.pump.Remembering? && !st.pump.landed
    ensures var s := st.pump.snap;
            Inv(st.(w := st.w.(memories := st.w.memories + [MemoryOf(s)]), pump := Remembering(s, st.pump.todo, true)))
  {
    hide KernelHolds, UniqueLive, RowsFit, LiveRowsCurrent, TodoOk, ReviewInv, PayloadFits;
    var s, m := st.pump.snap, st.w.memories + [MemoryOf(st.pump.snap)];
    assert m[|st.w.memories|].marker == Some(s.dedup);
    forall d | Remembered(st.w.memories, d) ensures Remembered(m, d) {
      var i :| 0 <= i < |st.w.memories| && st.w.memories[i].marker == Some(d);
      assert m[i].marker == Some(d);
    }
    LandKeepsReviews(st.w, s);
  }

  lemma LandKeepsInv(st: State)
    requires Inv(st) && Enabled(st, Land)
    ensures Inv(Step(st, Land))
  {
    hide Inv, KernelApply, MemoryOf;
    if st.pump.Calling? {
      CallLands(st);
    } else {
      MemoryLands(st);
    }
  }

  /** What is remembered for a Review is the summary its one row holds. */
  lemma LandKeepsReviews(w: World, s: Snap)
    requires ReviewInv(w) && SnapOk(w.rows, s) && s.dedup.ReviewDedup?
    ensures ReviewInv(w.(memories := w.memories + [MemoryOf(s)]))
  {
    var m := w.memories + [MemoryOf(s)];
    forall k, i | 0 <= k < |m| && 0 <= i < |w.rows| && m[k].marker == Some(w.rows[i].dedup)
      ensures w.rows[i].payload == Remember(w.rows[i].dedup, m[k].text)
    {
      if k == |w.memories| {
        assert w.rows[i].dedup == s.dedup == w.rows[s.id].dedup;
        assert i == s.id;
      }
    }
  }

  lemma RecallKeepsInv(st: State, lo: nat)
    requires Inv(st) && Enabled(st, RecallPage(lo))
    ensures Inv(Step(st, RecallPage(lo)))
  {
    hide StoreInv, Settled, MarkersUnique, DoneRemembered, ReviewInv, SnapOk, TodoOk;
  }

  lemma ReplyKeepsInv(st: State, reply: Reply, now: int)
    requires Inv(st) && Enabled(st, Answer(reply, now))
    ensures Inv(Step(st, Answer(reply, now)))
  {
    hide StoreInv, Settled, MarkersUnique, DoneRemembered, ReviewInv, AfterReply, SnapOk, TodoOk;
    PendingFits(st);
    AnswerKeepsInv(st, st.pump.snap, st.pump.todo, reply, now);
  }

  lemma PendingFits(st: State)
    requires PumpOk(st) && (st.pump.Calling? || st.pump.Recalling? || st.pump.Concluded? || st.pump.Remembering?)
    ensures PayloadFits(st.pump.snap.dedup, st.pump.snap.payload)
  {
    hide KernelHolds, TodoOk, Remembered;
  }

  lemma RestartKeepsInv(st: State, grants: Grants)
    requires Inv(st)
    ensures Inv(Step(st, Restart(grants)))
  {
    hide StoreInv, Settled, MarkersUnique, DoneRemembered, ReviewInv;
  }

  lemma OtherKeepsInv(st: State, e: Event)
    requires Inv(st) && Enabled(st, e) && !IsPump(e) && !e.Restart?
    ensures Inv(Step(st, e))
  {
    hide Inv, EnvStep;
    EnvKeepsInv(st, e);
  }

  lemma StepKeepsInv(st: State, e: Event)
    requires Inv(st) && Enabled(st, e)
    ensures Inv(Step(st, e))
  {
    hide Inv, Enabled, Step;
    match e
    case ReadBatch(now) => ReadKeepsInv(st, now);
    case Begin(now) => BeginKeepsInv(st, now);
    case Land => LandKeepsInv(st);
    case RecallPage(lo) => RecallKeepsInv(st, lo);
    case Answer(reply, now) => ReplyKeepsInv(st, reply, now);
    case Restart(grants) => RestartKeepsInv(st, grants);
    case _ => OtherKeepsInv(st, e);
  }

  lemma {:induction false} RunKeepsInv(st: State, es: seq<Event>)
    requires Inv(st) && Valid(st, es)
    ensures Inv(Run(st, es))
    decreases |es|
  {
    if es != [] {
      StepKeepsInv(st, es[0]);
      RunKeepsInv(Step(st, es[0]), es[1..]);
    }
  }

  // ------------------------------------------------------------- main theorems

  /** A store that has just been created, beside a kernel in any state at all. */
  predicate Fresh(st: State) {
    && st.w.routines == map[] && st.w.finalized == {} && st.w.rows == []
    && (forall i :: 0 <= i < |st.w.memories| ==> st.w.memories[i].marker.None?)
    && st.pump.Idle?
  }

  /** No lost update: after any run at all, a Routine with nothing pending or
      failed is held by the kernel exactly as the Routine table has it now, or
      is absent there if it is retired. */
  lemma NoLostUpdate(st: State, es: seq<Event>, id: string)
    requires Fresh(st) && Valid(st, es)
    requires id in Run(st, es).w.routines
    requires !HasLive(Run(st, es).w.rows, RoutineDedup(id))
    ensures var w := Run(st, es).w;
            if w.routines[id].status.Retired? then RoutineKey(id) !in w.scheds
            else
              && RoutineKey(id) in w.scheds
              && w.scheds[RoutineKey(id)].spec == Cron(w.routines[id].cron, Some(w.routines[id].tz))
              && w.scheds[RoutineKey(id)].enabled == w.routines[id].status.Active?
  {
    RunKeepsInv(st, es);
  }

  /** At most one memory per Review: whatever was lost, retried or cut short by
      a restart, the log never holds two memories with one marker, what it holds
      is the Review's own summary, and a Review whose row is done records the id
      of the only memory it has. */
  lemma AtMostOneMemory(st: State, es: seq<Event>, review: string)
    requires Fresh(st) && Valid(st, es)
    ensures var w := Run(st, es).w; var d := ReviewDedup(review);
            && (forall i, j :: 0 <= i < j < |w.memories| && w.memories[i].marker == Some(d) ==> w.memories[j].marker != Some(d))
            && (forall k :: 0 <= k < |w.rows| && w.rows[k].dedup == d && w.rows[k].status.Done?
                  ==> Names(w.memories, w.rows[k].ref, d))
            && (forall i, k :: 0 <= i < |w.memories| && w.memories[i].marker == Some(d) && 0 <= k < |w.rows| && w.rows[k].dedup == d
                  ==> w.rows[k].payload == Remember(d, w.memories[i].text))
  {
    RunKeepsInv(st, es);
    hide StoreInv, Settled, PumpOk;
  }

  /** Stale snapshots are harmless: however old the `list()` a correction was
      decided on, and whatever was edited since, every queued scheduler row says
      what its Routine says now. No retired Routine is queued for upsert and no
      active or paused one for delete. */
  lemma NoStaleIntent(st: State, es: seq<Event>, i: nat)
    requires Fresh(st) && Valid(st, es)
    requires i < |Run(st, es).w.rows|
    requires Live(Run(st, es).w.rows[i]) && Run(st, es).w.rows[i].dedup.RoutineDedup?
    ensures var w := Run(st, es).w; var r := w.rows[i]; var id := r.dedup.id;
            if id in w.routines && !w.routines[id].status.Retired? then
              r.payload == Upsert(RoutineKey(id), w.routines[id].cron, w.routines[id].tz, w.routines[id].status.Active?)
            else r.payload == Delete(RoutineKey(id))
    ensures forall j :: 0 <= j < |Run(st, es).w.rows| && j != i && Live(Run(st, es).w.rows[j])
                        ==> Run(st, es).w.rows[j].dedup != Run(st, es).w.rows[i].dedup
  {
    RunKeepsInv(st, es);
  }

  /** Wherever a run has led, a row turns `done` in one step only: one in which the
      kernel holds (or remembers) exactly the payload this row has at this version. */
  lemma DoneMeansAccepted(start: State, es: seq<Event>, e: Event, i: nat)
    requires Fresh(start) && Valid(start, es) && Enabled(Run(start, es), e)
    requires var st := Run(start, es);
             && i < |st.w.rows| && !st.w.rows[i].status.Done?
             && i < |Step(st, e).w.rows| && Step(st, e).w.rows[i].status.Done?
    ensures var st := Run(start, es); var row, row' := st.w.rows[i], Step(st, e).w.rows[i];
            && (st.pump.Calling? || st.pump.Concluded? || st.pump.Remembering?)
            && st.pump.snap.id == i && st.pump.snap.version == row.version
            && st.pump.snap.payload == row.payload == row'.payload
            && (st.pump.Calling? ==> st.pump.landed && KernelHolds(st.w.scheds, row.payload))
            && (!st.pump.Calling? ==>
                  Names(st.w.memories, row'.ref, row.dedup)
                  && row.payload == Remember(row.dedup, st.w.memories[row'.ref.value].text))
  {
    RunKeepsInv(start, es);
    DoneInOneStep(Run(start, es), e, i);
  }

  lemma DoneInOneStep(st: State, e: Event, i: nat)
    requires Inv(st) && Enabled(st, e)
    requires i < |st.w.rows| && !st.w.rows[i].status.Done?
    requires i < |Step(st, e).w.rows| && Step(st, e).w.rows[i].status.Done?
    ensures st.pump.Calling? || st.pump.Concluded? || st.pump.Remembering?
    ensures st.pump.snap.id == i && st.pump.snap.version == st.w.rows[i].version
    ensures st.pump.snap.payload == st.w.rows[i].payload == Step(st, e).w.rows[i].payload
    ensures st.pump.Calling? ==> st.pump.landed && KernelHolds(st.w.scheds, st.w.rows[i].payload)
    ensures st.pump.Concluded? || st.pump.Remembering? ==> Names(st.w.memories, Step(st, e).w.rows[i].ref, st.w.rows[i].dedup)
  {
    hide Settled, MarkersUnique, DoneRemembered, ReviewInv, EnvStep, KernelApply, LiveRowsCurrent, TodoOk, NewestMarker;
    match e
    case Answer(reply, now) => ClassifyFrame(st.w.rows, st.pump.snap, reply, now);
    case RecallPage(_) =>
    case Begin(_) =>
    case ReadBatch(_) =>
    case Land =>
    case Restart(_) =>
    case _ => EnvFrame(st.w, e);
  }

  function CurrentRow(st: State): Option<nat> {
    match st.pump
    case Batch(todo) => if todo == [] then None else Some(todo[0].id)
    case Calling(s, _, _) => Some(s.id)
    case Recalling(s, _, _, _) => Some(s.id)
    case Concluded(s, _, _) => Some(s.id)
    case Remembering(s, _, _) => Some(s.id)
    case _ => None
  }

  /** Drain discipline, at every point of every run: the pump writes at most the
      row whose turn it is; a lost connection and a revoked generation write
      nothing; a pending row has fewer than 20 unclassified failures, and only
      such a failure, no capacity reply and no missing grant, adds one. */
  lemma DrainDiscipline(start: State, es: seq<Event>, e: Event)
    requires Fresh(start) && Valid(start, es) && Enabled(Run(start, es), e) && IsPump(e)
    ensures var st := Run(start, es); var rows, rows' := st.w.rows, Step(st, e).w.rows;
            && |rows'| == |rows|
            && (forall j :: 0 <= j < |rows| && CurrentRow(st) != Some(j) ==> rows'[j] == rows[j])
            && (e.Answer? && e.reply.Err? && (e.reply.error.ConnectionLost? || e.reply.error.Revoked?) ==> rows' == rows)
            && (forall j :: 0 <= j < |rows| ==> CountsOther(rows[j], rows'[j], e))
  {
    RunKeepsInv(start, es);
    hide Inv, Step, Enabled;
    PumpStep(Run(start, es), e);
  }

  /** A pending row's count of unclassified failures: below the limit, and only
      such a failure adds one. */
  ghost predicate CountsOther(r: Row, r': Row, e: Event) {
    r'.status.Pending? ==>
      && r'.other < EXHAUSTION_THRESHOLD
      && (r'.other != r.other ==>
            && r'.other == r.other + 1
            && e.Answer? && e.reply.Err? && !IsCapacity(e.reply.error) && !IsPermanent(e.reply.error))
  }

  lemma ClassifyCounts(rows: seq<Row>, s: Snap, reply: Reply, now: int)
    requires SnapOk(rows, s) && RowsFit(rows)
    ensures CountsOther(rows[s.id], Classify(rows, s, reply, now).0[s.id], Answer(reply, now))
  {
    hide BackoffAfter, PayloadFits;
  }

  lemma AnswerWrites(rows: seq<Row>, s: Snap, reply: Reply, now: int)
    requires SnapOk(rows, s) && RowsFit(rows) && UniqueLive(rows)
    ensures var rows' := Classify(rows, s, reply, now).0;
            && |rows'| == |rows| && (forall j :: 0 <= j < |rows| && j != s.id ==> rows'[j] == rows[j])
            && (reply.Err? && (reply.error.ConnectionLost? || reply.error.Revoked?) ==> rows' == rows)
            && forall j :: 0 <= j < |rows| ==> CountsOther(rows[j], rows'[j], Answer(reply, now))
  {
    ClassifyFrame(rows, s, reply, now);
    ClassifyCounts(rows, s, reply, now);
    ConnectionWritesNothing(rows, s, reply, now);
    hide Classify, SnapOk, UniqueLive, PayloadFits;
  }

  lemma ConnectionWritesNothing(rows: seq<Row>, s: Snap, reply: Reply, now: int)
    ensures reply.Err? && (reply.error.ConnectionLost? || reply.error.Revoked?) ==> Classify(rows, s, reply, now).0 == rows
  {
  }

  /** Taking up a row writes that row at most. */
  lemma BeginWrites(st: State, now: int)
    requires PumpOk(st) && RowsFit(st.w.rows) && st.pump.Batch?
    ensures var rows, rows' := st.w.rows, BeginRow(st, now).w.rows;
            && |rows'| == |rows| && (forall j :: 0 <= j < |rows| && j != st.pump.todo[0].id ==> rows'[j] == rows[j])
            && forall j :: 0 <= j < |rows| ==> CountsOther(rows[j], rows'[j], Begin(now))
  {
    hide TodoOk, PayloadFits;
  }

  lemma PumpStep(st: State, e: Event)
    requires Inv(st) && Enabled(st, e) && IsPump(e)
    ensures var rows, rows' := st.w.rows, Step(st, e).w.rows;
            && |rows'| == |rows|
            && (forall j :: 0 <= j < |rows| && CurrentRow(st) != Some(j) ==> rows'[j] == rows[j])
            && (e.Answer? && e.reply.Err? && (e.reply.error.ConnectionLost? || e.reply.error.Revoked?) ==> rows' == rows)
            && (forall j :: 0 <= j < |rows| ==> CountsOther(rows[j], rows'[j], e))
  {
    hide Settled, MarkersUnique, DoneRemembered, ReviewInv, KernelApply, KernelHolds, LiveRowsCurrent, UniqueLive, NewestMarker, Names,
      Remembered, TodoOk, PayloadFits, MemoryOf, Classify, BeginRow, SnapOk;
    if e.Answer? {
      AnswerWrites(st.w.rows, st.pump.snap, e.reply, e.now);
    } else if e.Begin? {
      BeginWrites(st, e.now);
    }
  }

  // ------------------------------------------------------------ one whole drain

  /** The rows of the batch not yet settled, the one in hand first. */
  function Unsettled(p: Pump): seq<Snap> {
    match p
    case Batch(todo) => todo
    case Calling(s, todo, _) => [s] + todo
    case Recalling(s, todo, _, _) => [s] + todo
    case Concluded(s, todo, _) => [s] + todo
    case Remembering(s, todo, _) => [s] + todo
    case _ => []
  }

  ghost function Changed(rows: seq<Row>, rows': seq<Row>): set<nat> {
    set i | 0 <= i < |rows| && i < |rows'| && rows[i] != rows'[i]
  }

  /** The rows the pump itself writes over a run, whatever others write meanwhile. */
  ghost function PumpWrites(st: State, es: seq<Event>): set<nat>
    requires Valid(st, es)
    decreases |es|
  {
    if es == [] then {}
    else
      (if IsPump(es[0]) then Changed(st.w.rows, Step(st, es[0]).w.rows) else {}) + PumpWrites(Step(st, es[0]), es[1..])
  }

  ghost predicate WithinDrain(es: seq<Event>) {
    forall i :: 0 <= i < |es| ==> !es[i].ReadBatch? && !es[i].Restart?
  }

  /** The ids of the first `k` rows of a batch. */
  ghost function FirstIds(todo: seq<Snap>, k: nat): set<nat>
    requires k <= |todo|
  {
    set j | 0 <= j < k :: todo[j].id
  }

  lemma PumpMoves(st: State, e: Event)
    requires Enabled(st, e) && IsPump(e) && !e.ReadBatch? && (st.pump.Batch? ==> st.pump.todo != [])
    ensures var a, b := Unsettled(st.pump), Unsettled(Step(st, e).pump);
            a != [] && (b == a || b == [] || b == a[1..]) && (b == a ==> Step(st, e).w.rows == st.w.rows)
  {
    hide Classify, KernelApply, NewestMarker, MemoryOf, IsCurrent, MarkFailed, MarkRetry, Names;
    if e.Answer? {
      assert ([st.pump.snap] + st.pump.todo)[1..] == st.pump.todo;
      assert |st.pump.todo| != |[st.pump.snap] + st.pump.todo|;
    } else if e.Begin? {
      assert [st.pump.todo[0]] + st.pump.todo[1..] == st.pump.todo;
    }
  }

  /** One event settles at most the row in hand, and writes no other. */
  lemma StepSettles(st: State, e: Event)
    requires Inv(st) && Enabled(st, e) && !e.ReadBatch? && !e.Restart?
    ensures var a, b := Unsettled(st.pump), Unsettled(Step(st, e).pump);
            && (b == a || b == [] || (a != [] && b == a[1..]))
            && (IsPump(e) && b == a ==> Changed(st.w.rows, Step(st, e).w.rows) == {})
            && (IsPump(e) && b != a ==> a != [] && Changed(st.w.rows, Step(st, e).w.rows) <= {a[0].id})
            && (!IsPump(e) ==> b == a)
  {
    if IsPump(e) {
      BatchHasRows(st);
      PumpMoves(st, e);
      PumpStep(st, e);
      InHand(st);
      hide Inv, Step, Enabled, Unsettled, CountsOther;
    } else {
      hide Inv, EnvStep, Unsettled;
    }
  }

  lemma BatchHasRows(st: State)
    requires Inv(st)
    ensures st.pump.Batch? ==> st.pump.todo != []
  {
  }

  lemma InHand(st: State)
    ensures Unsettled(st.pump) != [] ==> CurrentRow(st) == Some(Unsettled(st.pump)[0].id)
  {
  }

  lemma {:induction false} DrainIsPrefix(st: State, es: seq<Event>) returns (k: nat)
    requires Inv(st) && Valid(st, es) && WithinDrain(es)
    ensures var a, b := Unsettled(st.pump), Unsettled(Run(st, es).pump);
            && k <= |a| && (b == a[k..] || b == [])
            && PumpWrites(st, es) <= FirstIds(a, k)
    decreases |es|
  {
    var a := Unsettled(st.pump);
    if es == [] {
      k := 0;
      assert a[0..] == a;
    } else {
      var e, next := es[0], Step(st, es[0]);
      StepSettles(st, e);
      StepKeepsInv(st, e);
      assert WithinDrain(es[1..]) by {
        assert forall i :: 0 <= i < |es| - 1 ==> es[1..][i] == es[i + 1];
      }
      var j := DrainIsPrefix(next, es[1..]);
      hide Inv, Step, Enabled, Unsettled, Changed, IsPump;
      k := PrefixGrows(a, Unsettled(next.pump), j, if IsPump(e) then Changed(st.w.rows, next.w.rows) else {},
                       PumpWrites(next, es[1..]), Unsettled(Run(next, es[1..]).pump));
    }
  }

  lemma PrefixGrows(a: seq<Snap>, b: seq<Snap>, j: nat, first: set<nat>, later: set<nat>, c: seq<Snap>) returns (k: nat)
    requires b == a || b == [] || (a != [] && b == a[1..])
    requires b == a ==> first == {}
    requires b != a ==> a != [] && first <= {a[0].id}
    requires j <= |b| && (c == b[j..] || c == []) && later <= FirstIds(b, j)
    ensures k <= |a| && (c == a[k..] || c == []) && first + later <= FirstIds(a, k)
  {
    if b == a {
      k := j;
    } else if b == [] {
      k := 1;
      assert a[0].id in FirstIds(a, k);
    } else {
      k := j + 1;
      assert b[j..] == a[k..];
      forall id | id in FirstIds(b, j) ensures id in FirstIds(a, k) {
        var i :| 0 <= i < j && b[i].id == id;
        assert a[i + 1].id == id;
      }
      assert a[0].id in FirstIds(a, k);
    }
  }

  /** One drain: at every point of it, with anything interleaved, the pump has
      settled a prefix of its batch, in order, and has written no row behind it. */
  lemma DrainSettlesPrefix(start: State, before: seq<Event>, es: seq<Event>) returns (k: nat)
    requires Fresh(start) && Valid(start, before) && Valid(Run(start, before), es) && WithinDrain(es)
    ensures var st := Run(start, before); var a, b := Unsettled(st.pump), Unsettled(Run(st, es).pump);
            && k <= |a| && (b == a[k..] || b == [])
            && PumpWrites(st, es) <= FirstIds(a, k)
            && (forall j :: k <= j < |a| ==> a[j].id !in PumpWrites(st, es))
  {
    RunKeepsInv(start, before);
    var st := Run(start, before);
    k := DrainIsPrefix(st, es);
    BatchIsOrdered(st);
  }

  lemma BatchIsOrdered(st: State)
    requires Inv(st)
    ensures forall i, j :: 0 <= i < j < |Unsettled(st.pump)| ==> Unsettled(st.pump)[i].id < Unsettled(st.pump)[j].id
  {
  }
}
