/** The pump's conversation with the kernel as a state machine: one call in
    flight, replies that succeed, fail or never come, and Routine edits, Review
    finalizations and full-reconcile corrections interleaved at every point. */
module Protocol {
  import opened Prelude
  import opened KernelKey
  import opened Outbox

  /** The error classes a kernel call can end in. */
  datatype ClientError =
    | Forbidden | QuotaExceeded | InvalidParams | TokenInvalid | PayloadTooLarge
    | NotFound | Revoked | ConnectionLost
    | RateLimited | Busy | NotReady | Draining
    | Timeout | NotSent | RequestNotInFlight | OtherError

  predicate IsPermanent(e: ClientError) {
    e.Forbidden? || e.QuotaExceeded? || e.InvalidParams? || e.TokenInvalid? || e.PayloadTooLarge?
  }

  function PermanentKind(e: ClientError): FailureKind
    requires IsPermanent(e)
  {
    match e
    case Forbidden => ForbiddenKind
    case QuotaExceeded => QuotaKind
    case InvalidParams => InvalidParamsKind
    case TokenInvalid => TokenInvalidKind
    case PayloadTooLarge => PayloadTooLargeKind
  }

  predicate IsCapacity(e: ClientError) {
    e.RateLimited? || e.Busy? || e.NotReady? || e.Draining?
  }

  /** A kernel-minted identity on success. */
  type Reply = Result<Option<nat>, ClientError>

  /** What the pump remembers of a row between reading it and writing back. */
  datatype Snap = Snap(id: nat, dedup: DedupKey, payload: Payload, version: nat, attempts: nat, other: nat)

  /** The memory a row asks for. */
  function MemoryOf(s: Snap): Memory {
    Memory(Some(s.dedup), if s.payload.Remember? then s.payload.summary else "")
  }

  datatype RowOutcome = Continue | StopBatch | RevokedPump

  /** Where the pump stands. `landed` says whether the kernel has executed the
      call in flight; `cursor` bounds the part of the memory log that is still
      unscanned, `page` counts the recall pages already read, `verdict` is what the
      pre-check alone decided. */
  datatype Pump =
    | Idle
    | Batch(todo: seq<Snap>)
    | Calling(snap: Snap, todo: seq<Snap>, landed: bool)
    | Recalling(snap: Snap, todo: seq<Snap>, cursor: nat, page: nat)
    | Concluded(snap: Snap, todo: seq<Snap>, verdict: Reply)
    | Remembering(snap: Snap, todo: seq<Snap>, landed: bool)
    | Stopped

  /** What this generation was granted, and how many recall pages one pre-check may read. */
  datatype Grants = Grants(scheduler: bool, memory: bool, maxPages: Pages)

  type Pages = n: nat | 1 <= n witness 1

  datatype State = State(w: World, pump: Pump, grants: Grants)

  // ------------------------------------------------------------- the backoff

  const U32: nat := 0x1_0000_0000
  const MAX_BACKOFF: nat := 300
  const UNKNOWN_KIND_RETRY_SECS: nat := 3600

  const U64_MAX: nat := 0xFFFF_FFFF_FFFF_FFFF

  function Pow2(e: nat): nat {
    if e == 0 then 1 else 2 * Pow2(e - 1)
  }

  function Min(a: nat, b: nat): nat {
    if a <= b then a else b
  }

  /** `attempts` is an i64; the exponent is cast down to 32 bits before the
      checked 64-bit shift. */
  function BackoffAfter(attempts: int): (r: nat)
    ensures r <= MAX_BACKOFF
  {
    var exponent := (if attempts > 1 then attempts - 1 else 0) % U32;
    Min(if exponent < 64 then Pow2(exponent) else U64_MAX, MAX_BACKOFF)
  }

  lemma {:induction false} Pow2Bounds(e: nat)
    ensures e >= 9 ==> Pow2(e) >= 512
    ensures e < 9 ==> Pow2(e) == [1, 2, 4, 8, 16, 32, 64, 128, 256][e]
  {
    if e > 0 {
      Pow2Bounds(e - 1);
    }
  }

  /** The documented schedule, 1s doubling up to 300s, is what the code computes
      exactly as long as the 32-bit cast cannot matter. */
  lemma BackoffSchedule(attempts: int)
    ensures BackoffAfter(attempts) == Min(Pow2(if attempts > 1 then attempts - 1 else 0), MAX_BACKOFF)
            <==> attempts <= U32 || (attempts - 1) % U32 >= 9
  {
    var k := if attempts > 1 then attempts - 1 else 0;
    Pow2Bounds(k);
    Pow2Bounds(k % U32);
    if k < U32 {
      assert k % U32 == k;
    }
  }

  /** Past 2^32 recorded failures the wait wraps back to one second. */
  lemma BackoffWraps()
    ensures BackoffAfter(U32 + 1) == 1
    ensures Min(Pow2(U32), MAX_BACKOFF) == 300
  {
    Pow2Bounds(U32);
  }

  // ------------------------------------------------------------------ events

  datatype Event =
    // the rest of Sin90, and the human on either side
    | Create(id: string, cron: string, tz: string)
    | Update(id: string, cron: string, tz: string)
    | Transition(id: string, to: RoutineStatus)
    | Finalize(review: string, blank: bool, summary: string)
    | Other(name: string, recognized: bool)
    | FixUpsert(id: string)
    | FixDelete(key: string)
    | Suspend(key: string, on: bool)
    | Disable(key: string)
    | Hold(ids: set<string>)
    | ForeignMemory(text: string)
    | Restart(grants: Grants)
    // the pump and the kernel's answers to it
    | ReadBatch(now: int)
    | Begin(now: int)
    | Land
    | RecallPage(lo: nat)
    | Answer(reply: Reply, now: int)

  predicate IsEnv(e: Event) {
    match e
    case Create(id, _, _) => Canonical(id)
    case Update(id, _, _) => Canonical(id)
    case Transition(id, _) => Canonical(id)
    case Finalize(_, _, _) => true
    case Other(_, _) => true
    case FixUpsert(id) => Canonical(id)
    case FixDelete(key) => HasPrefix(key) && LowerKey(key)
    case Suspend(_, _) => true
    case Disable(_) => true
    case Hold(_) => true
    case ForeignMemory(_) => true
    case _ => false
  }

  function EnvStep(w: World, e: Event): World
    requires IsEnv(e)
  {
    match e
    case Create(id, cron, tz) => CreateRoutine(w, id, cron, tz)
    case Update(id, cron, tz) => UpdateRoutine(w, id, cron, tz)
    case Transition(id, to) => TransitionRoutine(w, id, to)
    case Finalize(review, blank, summary) => FinalizeReview(w, review, blank, summary)
    case Other(name, recognized) => EnqueueOther(w, name, recognized)
    case FixUpsert(id) => CorrectUpsert(w, id)
    case FixDelete(key) => CorrectDelete(w, RecoveredId(key), key)
    case Suspend(key, on) =>
      if key in w.scheds then w.(scheds := w.scheds[key := w.scheds[key].(suspended := on)]) else w
    case Disable(key) =>
      if key in w.scheds then w.(scheds := w.scheds[key := w.scheds[key].(disabled := true)]) else w
    case Hold(ids) => HoldRoutines(w, ids)
    case ForeignMemory(text) => w.(memories := w.memories + [Memory(None, text)])
  }

  // -------------------------------------------------------------- the kernel

  /** `upsert` is keyed: it re-asserts spec and enabled, clears a system-side
      disable and leaves the human's own suspension alone. */
  function KernelApply(scheds: map<string, Sched>, p: Payload): map<string, Sched> {
    match p
    case Upsert(key, cron, tz, enabled) =>
      var suspended := key in scheds && scheds[key].suspended;
      scheds[key := Sched(Cron(cron, Some(tz)), enabled, suspended, false)]
    case Delete(key) => scheds - {key}
    case _ => scheds
  }

  /** The kernel holds exactly the desired state. */
  predicate KernelHolds(scheds: map<string, Sched>, p: Payload) {
    match p
    case Upsert(key, cron, tz, enabled) =>
      key in scheds && scheds[key].spec == Cron(cron, Some(tz)) && scheds[key].enabled == enabled
    case Delete(key) => key !in scheds
    case _ => true
  }

  /** The newest memory carrying the marker in `[lo, hi)` of the log. */
  function NewestMarker(memories: seq<Memory>, d: DedupKey, lo: nat, hi: nat): (r: Option<nat>)
    requires lo <= hi <= |memories|
    ensures r.Some? ==> lo <= r.value < hi && memories[r.value].marker == Some(d)
    ensures r.Some? ==> forall i :: r.value < i < hi ==> memories[i].marker != Some(d)
    ensures r.None? ==> forall i :: lo <= i < hi ==> memories[i].marker != Some(d)
  {
    if lo == hi then None
    else if memories[hi - 1].marker == Some(d) then Some(hi - 1)
    else NewestMarker(memories, d, lo, hi - 1)
  }

  /** The kernel-minted id names a memory that carries this marker. */
  predicate Names(memories: seq<Memory>, ref: Option<nat>, d: DedupKey) {
    ref.Some? && ref.value < |memories| && memories[ref.value].marker == Some(d)
  }

  // ---------------------------------------------------------------- the pump

  predicate IsDue(r: Row, now: int) {
    r.status.Pending? && (r.nextAt.None? || r.nextAt.value <= now)
  }

  function SnapOf(rows: seq<Row>, i: nat): Snap
    requires i < |rows|
  {
    Snap(i, rows[i].dedup, rows[i].payload, rows[i].version, rows[i].attempts, rows[i].other)
  }

  /** Oldest first. */
  function DueFrom(rows: seq<Row>, i: nat, now: int): (todo: seq<Snap>)
    requires i <= |rows|
    ensures forall k :: 0 <= k < |todo| ==> i <= todo[k].id < |rows| && todo[k] == SnapOf(rows, todo[k].id)
    ensures forall k :: 0 <= k < |todo| ==> IsDue(rows[todo[k].id], now)
    ensures forall j, k :: 0 <= j < k < |todo| ==> todo[j].id < todo[k].id
    ensures forall j :: i <= j < |rows| && IsDue(rows[j], now) ==> SnapOf(rows, j) in todo
    decreases |rows| - i
  {
    if i == |rows| then []
    else if IsDue(rows[i], now) then [SnapOf(rows, i)] + DueFrom(rows, i + 1, now)
    else DueFrom(rows, i + 1, now)
  }

  lemma DueAtEnd(rows: seq<Row>, now: int)
    ensures DueFrom(rows, |rows|, now) == []
  {
  }

  lemma DueUnfolds(rows: seq<Row>, i: nat, now: int)
    requires i < |rows|
    ensures DueFrom(rows, i, now) == (if IsDue(rows[i], now) then [SnapOf(rows, i)] else []) + DueFrom(rows, i + 1, now)
  {
    assert [] + DueFrom(rows, i + 1, now) == DueFrom(rows, i + 1, now);
  }

  /** What becomes of a row whose call ended in `reply`, and of the batch behind it. */
  function Classify(rows: seq<Row>, s: Snap, reply: Reply, now: int): (seq<Row>, RowOutcome) {
    match reply
    case Ok(ref) => (MarkDone(rows, s.id, s.version, ref), Continue)
    case Err(e) =>
      if e.NotFound? && s.payload.Delete? then (MarkDone(rows, s.id, s.version, None), Continue)
      else if e.Revoked? then (rows, RevokedPump)
      else if e.ConnectionLost? then (rows, StopBatch)
      else if IsPermanent(e) then (MarkFailed(rows, s.id, s.version, PermanentKind(e)), Continue)
      else if IsCapacity(e) then
        (MarkRetry(rows, s.id, s.version, now + BackoffAfter(s.attempts + 1), false), StopBatch)
      else if s.other + 1 >= EXHAUSTION_THRESHOLD then
        (MarkFailed(rows, s.id, s.version, Exhausted), Continue)
      else
        (MarkRetry(rows, s.id, s.version, now + BackoffAfter(s.attempts + 1), true), Continue)
  }

  /** A failure of none of the classes that get their own treatment. */
  predicate IsUnclassified(e: ClientError, p: Payload) {
    !(e.NotFound? && p.Delete?) && !e.Revoked? && !e.ConnectionLost? && !IsPermanent(e) && !IsCapacity(e)
  }

  /** The error policy, read from its results: what stops the batch or the pump,
      what fails a row for good, and when a row is tried again. A row that has
      moved on is not touched. */
  lemma ReplyPolicy(rows: seq<Row>, s: Snap, reply: Reply, now: int)
    requires s.id < |rows|
    ensures var (rows', outcome) := Classify(rows, s, reply, now); var r, r' := rows[s.id], rows'[s.id];
            && (outcome == StopBatch <==> reply.Err? && (reply.error.ConnectionLost? || IsCapacity(reply.error)))
            && (outcome == RevokedPump <==> reply.Err? && reply.error.Revoked?)
            && (!IsCurrent(rows, s.id, s.version) ==> rows' == rows)
            && (IsCurrent(rows, s.id, s.version) ==>
                  && (r'.status.Done? <==> reply.Ok? || (reply.error.NotFound? && s.payload.Delete?))
                  && (r'.status == Failed(Exhausted) <==>
                        reply.Err? && IsUnclassified(reply.error, s.payload) && s.other + 1 >= EXHAUSTION_THRESHOLD)
                  && (r'.status.Failed? && r'.status.kind != Exhausted <==> reply.Err? && IsPermanent(reply.error))
                  && (r' == r <==> reply.Err? && (reply.error.Revoked? || reply.error.ConnectionLost?))
                  && (r'.status.Pending? && r' != r ==>
                        && r'.attempts == r.attempts + 1 && r'.nextAt == Some(now + BackoffAfter(s.attempts + 1))
                        && r'.other == (if IsCapacity(reply.error) then r.other else r.other + 1)))
  {
    hide BackoffAfter;
  }

  function After(todo: seq<Snap>, outcome: RowOutcome): Pump {
    match outcome
    case Continue => if todo == [] then Idle else Batch(todo)
    case StopBatch => Idle
    case RevokedPump => Stopped
  }

  function AfterReply(st: State, s: Snap, todo: seq<Snap>, reply: Reply, now: int): State {
    var (rows, outcome) := Classify(st.w.rows, s, reply, now);
    st.(w := st.w.(rows := rows), pump := After(todo, outcome))
  }

  /** The re-check and dispatch of the next row of the batch. */
  function BeginRow(st: State, now: int): State
    requires st.pump.Batch? && st.pump.todo != []
  {
    var s, todo := st.pump.todo[0], st.pump.todo[1..];
    var skip := st.(pump := After(todo, Continue));
    if !IsCurrent(st.w.rows, s.id, s.version) then skip
    else
      match s.payload
      case Upsert(_, _, _, _) => if st.grants.scheduler then st.(pump := Calling(s, todo, false)) else skip
      case Delete(_) => if st.grants.scheduler then st.(pump := Calling(s, todo, false)) else skip
      case Remember(_, _) =>
        if st.grants.memory then st.(pump := Recalling(s, todo, |st.w.memories|, 0)) else skip
      case Malformed => skip.(w := st.w.(rows := MarkFailed(st.w.rows, s.id, s.version, BadDesired)))
      case Unrecognized =>
        skip.(w := st.w.(rows := MarkRetry(st.w.rows, s.id, s.version, now + UNKNOWN_KIND_RETRY_SECS, false)))
  }

  /** One recall page scans the log from `cursor` down to `lo`; `lo == 0` is the
      kernel's empty cursor. A hit concludes the row without any `remember`; a
      scan that has covered everything allows one; running out of pages allows
      neither and is reported as an unclassified error. */
  function RecallStep(st: State, lo: nat): State
    requires st.pump.Recalling? && lo <= st.pump.cursor <= |st.w.memories|
  {
    var s, todo, cursor := st.pump.snap, st.pump.todo, st.pump.cursor;
    var found := NewestMarker(st.w.memories, s.dedup, lo, cursor);
    st.(pump :=
      if found.Some? then Concluded(s, todo, Ok(found))
      else if lo == 0 then Remembering(s, todo, false)
      else if st.pump.page + 1 >= st.grants.maxPages then Concluded(s, todo, Err(OtherError))
      else Recalling(s, todo, lo, st.pump.page + 1))
  }

  /** Which events can happen in a state. A reply can only report success after
      the kernel executed the call; any failure may or may not have landed. */
  predicate Enabled(st: State, e: Event) {
    match e
    case ReadBatch(_) => st.pump.Idle?
    case Begin(_) => st.pump.Batch? && st.pump.todo != []
    case Land => (st.pump.Calling? || st.pump.Remembering?) && !st.pump.landed
    case RecallPage(lo) => st.pump.Recalling? && lo <= st.pump.cursor <= |st.w.memories|
    case Answer(reply, _) =>
      (match st.pump
       case Calling(s, _, landed) =>
         && (reply.Ok? ==> landed && reply.value.None?)
         && (reply.Err? && reply.error.NotFound? && s.payload.Delete? ==> landed)
       case Recalling(_, _, _, _) => reply.Err?
       case Concluded(_, _, verdict) => reply == verdict
       case Remembering(s, _, landed) => reply.Ok? ==> landed && Names(st.w.memories, reply.value, s.dedup)
       case _ => false)
    case Restart(_) => true
    case _ => IsEnv(e)
  }

  function Step(st: State, e: Event): State
    requires Enabled(st, e)
  {
    match e
    case ReadBatch(now) =>
      var todo := DueFrom(st.w.rows, 0, now);
      st.(pump := After(todo, Continue))
    case Begin(now) => BeginRow(st, now)
    case Land =>
      (match st.pump
       case Calling(s, todo, _) =>
         st.(w := st.w.(scheds := KernelApply(st.w.scheds, s.payload)), pump := Calling(s, todo, true))
       case Remembering(s, todo, _) =>
         st.(w := st.w.(memories := st.w.memories + [MemoryOf(s)]), pump := Remembering(s, todo, true)))
    case RecallPage(lo) => RecallStep(st, lo)
    case Answer(reply, now) => AfterReply(st, st.pump.snap, st.pump.todo, reply, now)
    case Restart(grants) => State(st.w, Idle, grants)
    case _ => st.(w := EnvStep(st.w, e))
  }

  ghost predicate Valid(st: State, es: seq<Event>)
    decreases |es|
  {
    es == [] || (Enabled(st, es[0]) && Valid(Step(st, es[0]), es[1..]))
  }

  ghost function Run(st: State, es: seq<Event>): State
    requires Valid(st, es)
    decreases |es|
  {
    if es == [] then st else Run(Step(st, es[0]), es[1..])
  }

  lemma {:induction false} RunConcat(st: State, a: seq<Event>, b: seq<Event>)
    requires Valid(st, a) && Valid(Run(st, a), b)
    ensures Valid(st, a + b) && Run(st, a + b) == Run(Run(st, a), b)
    decreases |a|
  {
    if a == [] {
      assert a + b == b;
    } else {
      assert (a + b)[0] == a[0] && (a + b)[1..] == a[1..] + b;
      RunConcat(Step(st, a[0]), a[1..], b);
    }
  }

  // ------------------------------------------------------------ the invariant

  /** A routine with nothing queued is exactly as the kernel holds it. */
  ghost predicate Settled(w: World) {
    forall id :: id in w.routines && !HasLive(w.rows, RoutineDedup(id)) ==>
      KernelHolds(w.scheds, Desired(w.routines, id))
  }

  ghost predicate MarkersUnique(memories: seq<Memory>) {
    forall i, j :: 0 <= i < j < |memories| && memories[i].marker.Some? ==> memories[i].marker != memories[j].marker
  }

  ghost predicate Remembered(memories: seq<Memory>, d: DedupKey) {
    exists i :: 0 <= i < |memories| && memories[i].marker == Some(d)
  }

  ghost predicate DoneRemembered(w: World) {
    forall i :: 0 <= i < |w.rows| && w.rows[i].status.Done? && w.rows[i].dedup.ReviewDedup? ==>
      Names(w.memories, w.rows[i].ref, w.rows[i].dedup)
  }

  /** A Review has one row at most, ever; a memory with its marker holds the
      summary of that row. */
  ghost predicate ReviewInv(w: World) {
    && (forall i :: 0 <= i < |w.rows| && w.rows[i].dedup.ReviewDedup? ==> w.rows[i].dedup.review in w.finalized)
    && (forall i, j :: 0 <= i < j < |w.rows| && w.rows[i].dedup.ReviewDedup? ==> w.rows[i].dedup != w.rows[j].dedup)
    && (forall k :: 0 <= k < |w.memories| && w.memories[k].marker.Some? ==>
          w.memories[k].marker.value.ReviewDedup? && w.memories[k].marker.value.review in w.finalized)
    && (forall k, i :: 0 <= k < |w.memories| && 0 <= i < |w.rows| && w.memories[k].marker == Some(w.rows[i].dedup) ==>
          w.rows[i].payload == Remember(w.rows[i].dedup, w.memories[k].text))
  }

  /** A snapshot may be old, but never from a version the row has not had. */
  ghost predicate SnapOk(rows: seq<Row>, s: Snap) {
    && s.id < |rows|
    && var r := rows[s.id];
    && s.dedup == r.dedup && s.version <= r.version
    && PayloadFits(s.dedup, s.payload)
    && (s.version == r.version || s.dedup.ReviewDedup? ==> s.payload == r.payload)
    && (s.version == r.version && r.status.Pending? ==> s.attempts == r.attempts && s.other == r.other)
  }

  ghost predicate TodoOk(rows: seq<Row>, todo: seq<Snap>) {
    && (forall k :: 0 <= k < |todo| ==> SnapOk(rows, todo[k]))
    && (forall j, k :: 0 <= j < k < |todo| ==> todo[j].id < todo[k].id)
  }

  ghost predicate CurrentOk(rows: seq<Row>, s: Snap, todo: seq<Snap>) {
    && SnapOk(rows, s)
    && rows[s.id].status.Pending?
    && TodoOk(rows, todo)
    && (forall k :: 0 <= k < |todo| ==> s.id < todo[k].id)
  }

  ghost predicate PumpOk(st: State) {
    match st.pump
    case Idle => true
    case Stopped => true
    case Batch(todo) => todo != [] && TodoOk(st.w.rows, todo)
    case Calling(s, todo, landed) =>
      CurrentOk(st.w.rows, s, todo) && s.dedup.RoutineDedup? && (landed ==> KernelHolds(st.w.scheds, s.payload))
    case Recalling(s, todo, cursor, _) =>
      && CurrentOk(st.w.rows, s, todo) && s.dedup.ReviewDedup?
      && cursor <= |st.w.memories|
      && (forall i :: cursor <= i < |st.w.memories| ==> st.w.memories[i].marker != Some(s.dedup))
    case Concluded(s, todo, verdict) =>
      && CurrentOk(st.w.rows, s, todo) && s.dedup.ReviewDedup?
      && (verdict.Ok? ==> Names(st.w.memories, verdict.value, s.dedup))
      && (verdict.Err? ==> verdict.error.OtherError?)
    case Remembering(s, todo, landed) =>
      CurrentOk(st.w.rows, s, todo) && s.dedup.ReviewDedup? && (landed <==> Remembered(st.w.memories, s.dedup))
  }

  ghost predicate Inv(st: State) {
    && StoreInv(st.w)
    && Settled(st.w)
    && MarkersUnique(st.w.memories)
    && DoneRemembered(st.w)
    && ReviewInv(st.w)
    && PumpOk(st)
  }

  // -------------------------------------------------- write-backs keep the rows

  /** How the pump may change the table: one row, never its version, payload or key. */
  ghost predicate OnlyRow(rows: seq<Row>, rows': seq<Row>, i: nat) {
    && |rows'| == |rows|
    && (forall j :: 0 <= j < |rows| && j != i ==> rows'[j] == rows[j])
    && (i < |rows| ==>
          && rows'[i].dedup == rows[i].dedup && rows'[i].payload == rows[i].payload
          && rows'[i].version == rows[i].version
          && (!rows[i].status.Pending? ==> rows'[i] == rows[i]))
  }

  lemma ClassifyFrame(rows: seq<Row>, s: Snap, reply: Reply, now: int)
    requires SnapOk(rows, s)
    requires RowsFit(rows) && UniqueLive(rows)
    ensures var rows' := Classify(rows, s, reply, now).0;
            && OnlyRow(rows, rows', s.id) && RowsFit(rows') && UniqueLive(rows')
            && (rows'[s.id].status.Done? && !rows[s.id].status.Done? ==>
                  && rows[s.id].version == s.version
                  && (reply.Ok? || (reply.error.NotFound? && s.payload.Delete?)))
  {
  }

  lemma OnlyRowTodo(rows: seq<Row>, rows': seq<Row>, i: nat, todo: seq<Snap>)
    requires OnlyRow(rows, rows', i)
    requires TodoOk(rows, todo)
    requires forall k :: 0 <= k < |todo| ==> i < todo[k].id
    ensures TodoOk(rows', todo)
  {
    forall k | 0 <= k < |todo| ensures SnapOk(rows', todo[k]) {
      assert rows'[todo[k].id] == rows[todo[k].id];
    }
  }

  /** If a row's key keeps a live row, or its last live row went `done` on a
      kernel that holds what the row says, `Settled` survives. */
  lemma OnlyRowSettled(w: World, rows': seq<Row>, i: nat)
    requires StoreInv(w) && Settled(w)
    requires OnlyRow(w.rows, rows', i) && i < |w.rows|
    requires UniqueLive(rows') && RowsFit(rows')
    requires Live(w.rows[i]) && !Live(rows'[i]) && w.rows[i].dedup.RoutineDedup?
             ==> KernelHolds(w.scheds, w.rows[i].payload)
    ensures StoreInv(w.(rows := rows')) && Settled(w.(rows := rows'))
  {
    var w' := w.(rows := rows');
    forall k | 0 <= k < |rows'| && Live(rows'[k]) && rows'[k].dedup.RoutineDedup?
      ensures rows'[k].payload == Desired(w.routines, rows'[k].dedup.id)
    {
      assert Live(w.rows[k]);
    }
    forall id | id in w.routines && !HasLive(rows', RoutineDedup(id))
      ensures KernelHolds(w.scheds, Desired(w.routines, id))
    {
      if HasLive(w.rows, RoutineDedup(id)) {
        var k :| 0 <= k < |w.rows| && LiveFor(w.rows[k], RoutineDedup(id));
        assert !LiveFor(rows'[k], RoutineDedup(id));
        assert k == i;
      }
    }
  }

  lemma OnlyRowReviews(w: World, rows': seq<Row>, i: nat)
    requires ReviewInv(w) && OnlyRow(w.rows, rows', i)
    ensures ReviewInv(w.(rows := rows'))
  {
    assert forall j :: 0 <= j < |rows'| ==> rows'[j].dedup == w.rows[j].dedup && rows'[j].payload == w.rows[j].payload;
  }

  lemma AnswerKeepsInv(st: State, s: Snap, todo: seq<Snap>, reply: Reply, now: int)
    requires StoreInv(st.w) && Settled(st.w) && MarkersUnique(st.w.memories) && DoneRemembered(st.w) && ReviewInv(st.w)
    requires CurrentOk(st.w.rows, s, todo)
    requires (reply.Ok? || (reply.error.NotFound? && s.payload.Delete?)) && s.dedup.RoutineDedup?
             ==> KernelHolds(st.w.scheds, s.payload)
    requires reply.Ok? && s.dedup.ReviewDedup? ==> Names(st.w.memories, reply.value, s.dedup)
    ensures Inv(AfterReply(st, s, todo, reply, now))
  {
    ClassifyFrame(st.w.rows, s, reply, now);
    var st' := AfterReply(st, s, todo, reply, now);
    var rows' := st'.w.rows;
    OnlyRowTodo(st.w.rows, rows', s.id, todo);
    OnlyRowSettled(st.w, rows', s.id);
    OnlyRowReviews(st.w, rows', s.id);
    forall i | 0 <= i < |rows'| && rows'[i].status.Done? && rows'[i].dedup.ReviewDedup?
      ensures Names(st.w.memories, rows'[i].ref, rows'[i].dedup)
    {
      if i == s.id && !st.w.rows[i].status.Done? {
        assert PayloadFits(s.dedup, s.payload);
      } else {
        assert st.w.rows[i] == rows'[i];
      }
    }
  }
}
