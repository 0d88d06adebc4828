/** The store side of the outbox: Routines, the versioned outbox rows written
    beside them, and every operation that writes either. Rows are kept in
    creation order, so a row's id is its position. */
module Outbox {
  import opened Prelude
  import opened KernelKey

  datatype RoutineStatus = Active | Paused | Retired

  datatype Routine = Routine(cron: string, tz: string, status: RoutineStatus)

  /** `routine:<id>`, `review:<id>`, or a key written by some other store layer. */
  datatype DedupKey = RoutineDedup(id: string) | ReviewDedup(review: string) | OtherDedup(name: string)

  /** A row's kind together with its parsed `desired` column: a known kind whose
      payload does not parse is `Malformed`, a kind this build has never heard
      of is `Unrecognized`. */
  datatype Payload =
    | Upsert(key: string, cron: string, tz: string, enabled: bool)
    | Delete(key: string)
    | Remember(marker: DedupKey, summary: string)
    | Malformed
    | Unrecognized

  datatype FailureKind =
    | BadDesired | Exhausted | ForbiddenKind | QuotaKind | InvalidParamsKind | TokenInvalidKind | PayloadTooLargeKind

  datatype RowStatus = Pending | Done | Failed(kind: FailureKind)

  datatype Row = Row(dedup: DedupKey, payload: Payload, status: RowStatus, version: nat,
                     attempts: nat, other: nat, nextAt: Option<int>, ref: Option<nat>)

  /** A kernel schedule's spec: Sin90 only ever writes `Cron` with a zone. */
  datatype Spec = Cron(expr: string, tz: Option<string>) | NotCron

  /** One entry of the kernel's `list`: `suspended` by the human, `disabled` by the system. */
  datatype Sched = Sched(spec: Spec, enabled: bool, suspended: bool, disabled: bool)

  /** One entry of the memory log; Sin90's own carry the key of the row they came from. */
  datatype Memory = Memory(marker: Option<DedupKey>, text: string)

  /** Everything that outlives a pump: both sides of the connection. `held` is the
      column that says which Routines the human has suspended in the kernel. */
  datatype World = World(routines: map<string, Routine>,
                         held: set<string>,
                         finalized: set<string>,
                         rows: seq<Row>,
                         scheds: map<string, Sched>,
                         memories: seq<Memory>)

  // ------------------------------------------------------------ outbox rows

  /** Pending or failed: a row that the next write for its key collapses onto. */
  predicate Live(r: Row) { !r.status.Done? }

  predicate LiveFor(r: Row, d: DedupKey) { Live(r) && r.dedup == d }

  ghost predicate HasLive(rows: seq<Row>, d: DedupKey) {
    exists i :: 0 <= i < |rows| && LiveFor(rows[i], d)
  }

  ghost predicate HasPending(rows: seq<Row>, d: DedupKey) {
    exists i :: 0 <= i < |rows| && rows[i].dedup == d && rows[i].status.Pending?
  }

  /** The newest live row of a key. */
  function FindLive(rows: seq<Row>, d: DedupKey): (r: Option<nat>)
    ensures r.None? ==> !HasLive(rows, d)
    ensures r.Some? ==> r.value < |rows| && LiveFor(rows[r.value], d)
    ensures r.Some? ==> forall j :: r.value < j < |rows| ==> !LiveFor(rows[j], d)
  {
    if rows == [] then None
    else if LiveFor(rows[|rows| - 1], d) then Some(|rows| - 1)
    else
      var r := FindLive(rows[..|rows| - 1], d);
      assert forall j :: 0 <= j < |rows| - 1 ==> rows[..|rows| - 1][j] == rows[j];
      r
  }

  function FreshRow(d: DedupKey, p: Payload): Row {
    Row(d, p, Pending, 1, 0, 0, None, None)
  }

  function Overwritten(r: Row, p: Payload): Row {
    r.(payload := p, status := Pending, version := r.version + 1, attempts := 0, other := 0, nextAt := None)
  }

  /** N changes to one entity leave one row holding the last of them; a done row
      is history and never comes back. */
  function UpsertOutbox(rows: seq<Row>, d: DedupKey, p: Payload): seq<Row> {
    match FindLive(rows, d)
    case Some(i) => rows[i := Overwritten(rows[i], p)]
    case None => rows + [FreshRow(d, p)]
  }

  // ------------------------------------------------------- Routine mutations

  /** What the kernel should hold for a Routine id, as the Routine table says now. */
  function Desired(routines: map<string, Routine>, id: string): Payload {
    if id in routines && !routines[id].status.Retired? then
      Upsert(RoutineKey(id), routines[id].cron, routines[id].tz, routines[id].status.Active?)
    else
      Delete(RoutineKey(id))
  }

  predicate RoutineTransitionAllowed(from: RoutineStatus, to: RoutineStatus) {
    || (from.Active? && to.Paused?)
    || (from.Paused? && to.Active?)
    || (!from.Retired? && to.Retired?)
  }

  /** Stores the new Routine record and mirrors it into the outbox, in one transaction. */
  function WriteRoutine(w: World, id: string, r: Routine): World {
    var routines := w.routines[id := r];
    w.(routines := routines, rows := UpsertOutbox(w.rows, RoutineDedup(id), Desired(routines, id)))
  }

  function CreateRoutine(w: World, id: string, cron: string, tz: string): World {
    if id in w.routines then w else WriteRoutine(w, id, Routine(cron, tz, Active))
  }

  /** A retired Routine refuses every edit; restating the current values writes nothing. */
  function UpdateRoutine(w: World, id: string, cron: string, tz: string): World {
    if id !in w.routines || w.routines[id].status.Retired? then w
    else if cron == w.routines[id].cron && tz == w.routines[id].tz then w
    else WriteRoutine(w, id, w.routines[id].(cron := cron, tz := tz))
  }

  function TransitionRoutine(w: World, id: string, to: RoutineStatus): World {
    if id !in w.routines || !RoutineTransitionAllowed(w.routines[id].status, to) then w
    else WriteRoutine(w, id, w.routines[id].(status := to))
  }

  /** `draft -> finalized` happens once per Review; a blank body enqueues nothing. */
  function FinalizeReview(w: World, review: string, blank: bool, summary: string): World {
    if review in w.finalized then w
    else
      var w' := w.(finalized := w.finalized + {review});
      if blank then w'
      else w'.(rows := UpsertOutbox(w.rows, ReviewDedup(review), Remember(ReviewDedup(review), summary)))
  }

  /** A row written by a store layer newer than this reconciler, or damaged by hand. */
  function EnqueueOther(w: World, name: string, recognized: bool): World {
    w.(rows := UpsertOutbox(w.rows, OtherDedup(name), if recognized then Malformed else Unrecognized))
  }

  // ----------------------------------------------- full-reconcile corrections

  function AnyPending(rows: seq<Row>, d: DedupKey): (b: bool)
    ensures b <==> HasPending(rows, d)
  {
    exists i | 0 <= i < |rows| :: rows[i].dedup == d && rows[i].status.Pending?
  }

  /** Re-reads the Routine: a retired or missing one, or one with a row already
      queued, is left alone. */
  function CorrectUpsert(w: World, id: string): World {
    if id !in w.routines || w.routines[id].status.Retired? || AnyPending(w.rows, RoutineDedup(id)) then w
    else w.(rows := UpsertOutbox(w.rows, RoutineDedup(id), Desired(w.routines, id)))
  }

  /** Its counterpart for a kernel key that looked like an orphan; sends back the
      key the kernel itself reported. */
  function CorrectDelete(w: World, id: string, key: string): World {
    if (id in w.routines && !w.routines[id].status.Retired?) || AnyPending(w.rows, RoutineDedup(id)) then w
    else w.(rows := UpsertOutbox(w.rows, RoutineDedup(id), Delete(key)))
  }

  /** Rebuilds the whole column: cleared everywhere, then set for these ids. */
  function HoldRoutines(w: World, ids: set<string>): World {
    w.(held := ids * w.routines.Keys)
  }

  // ------------------------------------------------------ guarded write-backs

  /** `WHERE id = ? AND status = 'pending' AND version = ?`. */
  predicate IsCurrent(rows: seq<Row>, i: nat, version: nat) {
    i < |rows| && rows[i].status.Pending? && rows[i].version == version
  }

  function MarkDone(rows: seq<Row>, i: nat, version: nat, ref: Option<nat>): seq<Row> {
    if IsCurrent(rows, i, version) then rows[i := rows[i].(status := Done, ref := ref)] else rows
  }

  function MarkRetry(rows: seq<Row>, i: nat, version: nat, nextAt: int, bump: bool): seq<Row> {
    if IsCurrent(rows, i, version) then
      rows[i := rows[i].(attempts := rows[i].attempts + 1,
                         other := if bump then rows[i].other + 1 else rows[i].other,
                         nextAt := Some(nextAt))]
    else rows
  }

  function MarkFailed(rows: seq<Row>, i: nat, version: nat, kind: FailureKind): seq<Row> {
    if IsCurrent(rows, i, version) then
      rows[i := rows[i].(status := Failed(kind), attempts := rows[i].attempts + 1, nextAt := None)]
    else rows
  }

  // ------------------------------------------------------------ the invariant

  const EXHAUSTION_THRESHOLD: nat := 20

  ghost predicate UniqueLive(rows: seq<Row>) {
    forall i, j :: 0 <= i < j < |rows| && Live(rows[i]) && Live(rows[j]) ==> rows[i].dedup != rows[j].dedup
  }

  /** A payload that fits the key it is queued under. */
  predicate PayloadFits(d: DedupKey, p: Payload) {
    match d
    case RoutineDedup(id) => Canonical(id) && ((p.Upsert? && p.key == RoutineKey(id)) || p == Delete(RoutineKey(id)))
    case ReviewDedup(_) => p.Remember? && p.marker == d
    case OtherDedup(_) => p.Malformed? || p.Unrecognized?
  }

  ghost predicate RowsFit(rows: seq<Row>) {
    forall i :: 0 <= i < |rows| ==>
      && PayloadFits(rows[i].dedup, rows[i].payload)
      && (rows[i].status.Pending? ==> rows[i].other < EXHAUSTION_THRESHOLD)
  }

  /** Every live scheduler row holds what its Routine says now. */
  ghost predicate LiveRowsCurrent(routines: map<string, Routine>, rows: seq<Row>) {
    forall i :: 0 <= i < |rows| && Live(rows[i]) && rows[i].dedup.RoutineDedup? ==>
      rows[i].payload == Desired(routines, rows[i].dedup.id)
  }

  ghost predicate StoreInv(w: World) {
    && (forall id :: id in w.routines ==> Canonical(id))
    && UniqueLive(w.rows)
    && RowsFit(w.rows)
    && LiveRowsCurrent(w.routines, w.rows)
  }

  /** One store write for `d`: everything else in the table stays as it was, and
      `d` now has exactly this payload queued. */
  lemma UpsertOutboxEffect(rows: seq<Row>, d: DedupKey, p: Payload)
    requires UniqueLive(rows)
    ensures var rows' := UpsertOutbox(rows, d, p);
            && UniqueLive(rows')
            && |rows| <= |rows'|
            && HasPending(rows', d)
            && (forall i :: 0 <= i < |rows'| && LiveFor(rows'[i], d) ==>
                  rows'[i].status.Pending? && rows'[i].payload == p && rows'[i].other == 0)
            && (forall i :: 0 <= i < |rows| && !LiveFor(rows[i], d) ==> rows'[i] == rows[i])
            && (forall i :: 0 <= i < |rows| && LiveFor(rows[i], d) ==> rows'[i] == Overwritten(rows[i], p))
            && (forall i :: |rows| <= i < |rows'| ==> rows'[i] == FreshRow(d, p))
  {
    var rows' := UpsertOutbox(rows, d, p);
    match FindLive(rows, d) {
      case Some(k) =>
        assert rows'[k].dedup == d && rows'[k].status.Pending?;
      case None =>
        assert rows'[|rows|] == FreshRow(d, p);
    }
  }

  lemma UpsertOutboxKeepsInv(w: World, w': World, d: DedupKey, p: Payload)
    requires StoreInv(w)
    requires w'.rows == UpsertOutbox(w.rows, d, p)
    requires PayloadFits(d, p)
    requires forall id :: id in w'.routines ==> Canonical(id)
    requires d.RoutineDedup? ==> p == Desired(w'.routines, d.id)
    requires forall id :: RoutineDedup(id) != d ==> Desired(w'.routines, id) == Desired(w.routines, id)
    ensures StoreInv(w')
  {
    UpsertOutboxEffect(w.rows, d, p);
    forall i | 0 <= i < |w'.rows| && Live(w'.rows[i]) && w'.rows[i].dedup.RoutineDedup?
      ensures w'.rows[i].payload == Desired(w'.routines, w'.rows[i].dedup.id)
    {
      if i < |w.rows| && !LiveFor(w.rows[i], d) {
        assert w'.rows[i] == w.rows[i];
      }
    }
  }

  /** Every Routine mutation, Review finalization and full-reconcile correction
      keeps the store invariant, whatever snapshot it was decided on. */
  lemma RoutineWritesKeepInv(w: World, id: string, cron: string, tz: string, to: RoutineStatus)
    requires StoreInv(w) && Canonical(id)
    ensures StoreInv(CreateRoutine(w, id, cron, tz))
    ensures StoreInv(UpdateRoutine(w, id, cron, tz))
    ensures StoreInv(TransitionRoutine(w, id, to))
  {
    forall r: Routine ensures StoreInv(WriteRoutine(w, id, r)) {
      var w' := WriteRoutine(w, id, r);
      UpsertOutboxKeepsInv(w, w', RoutineDedup(id), Desired(w'.routines, id));
    }
  }

  lemma OtherWritesKeepInv(w: World, name: string, flag: bool, summary: string)
    requires StoreInv(w)
    ensures StoreInv(FinalizeReview(w, name, flag, summary))
    ensures StoreInv(EnqueueOther(w, name, flag))
  {
    var review := FinalizeReview(w, name, flag, summary);
    if review.rows != w.rows {
      UpsertOutboxKeepsInv(w, review, ReviewDedup(name), Remember(ReviewDedup(name), summary));
    }
    var other := EnqueueOther(w, name, flag);
    UpsertOutboxKeepsInv(w, other, OtherDedup(name), if flag then Malformed else Unrecognized);
  }

  lemma CorrectionsKeepInv(w: World, id: string, key: string)
    requires StoreInv(w) && Canonical(id)
    ensures StoreInv(CorrectUpsert(w, id))
    ensures key == RoutineKey(id) ==> StoreInv(CorrectDelete(w, id, key))
  {
    var up := CorrectUpsert(w, id);
    if up != w {
      UpsertOutboxKeepsInv(w, up, RoutineDedup(id), Desired(w.routines, id));
    }
    var del := CorrectDelete(w, id, key);
    if del != w && key == RoutineKey(id) {
      UpsertOutboxKeepsInv(w, del, RoutineDedup(id), Delete(key));
    }
  }
}
