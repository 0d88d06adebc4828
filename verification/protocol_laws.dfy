/** What the pump sends, when it sends it, and what a reply does, read off the
    tables at any point of any run. */
module ProtocolLaws {
  import opened Prelude
  import opened KernelKey
  import opened Outbox
  import opened Protocol
  import opened ProtocolSafety

  /** The row still waits as it was read: same version, not settled since. */
  predicate Unchanged(rows: seq<Row>, s: Snap) {
    s.id < |rows| && rows[s.id].status == Pending && rows[s.id].version == s.version
  }

  /** What the kernel should hold for a Routine, in the words of the Routine table. */
  predicate SaysNow(w: World, id: string, p: Payload) {
    if id in w.routines && w.routines[id].status != Retired then
      p == Upsert(RoutineKey(id), w.routines[id].cron, w.routines[id].tz, w.routines[id].status == Active)
    else p == Delete(RoutineKey(id))
  }

  /** No call is in flight and none is being prepared. */
  predicate Quiescent(p: Pump) {
    p.Idle? || p.Batch?
  }

  /** Over any run, only what is current is sent: a call starts exactly for a row
      that still waits at the version it was read at and whose capability was
      granted; it sends that row's payload, and for a Routine that is what the
      Routine table says at this moment. A row that has moved on is passed over
      without a call and without a write. */
  lemma OnlyCurrentIsSent(start: State, es: seq<Event>, now: int)
    requires Fresh(start) && Valid(start, es) && Enabled(Run(start, es), Begin(now))
    ensures var st, st' := Run(start, es), Step(Run(start, es), Begin(now));
            var s, rows := st.pump.todo[0], st.w.rows;
            && s.id < |rows|
            && (!Unchanged(rows, s) ==> st'.w == st.w && Quiescent(st'.pump))
            && (!Quiescent(st'.pump) ==>
                  && st'.w == st.w && Unchanged(rows, s) && st'.pump.snap == s
                  && s.dedup == rows[s.id].dedup && s.payload == rows[s.id].payload)
            && (st'.pump.Calling? <==>
                  Unchanged(rows, s) && st.grants.scheduler && (rows[s.id].payload.Upsert? || rows[s.id].payload.Delete?))
            && (st'.pump.Calling? ==> s.dedup.RoutineDedup? && SaysNow(st.w, s.dedup.id, s.payload) && !st'.pump.landed)
            && (st'.pump.Recalling? <==> Unchanged(rows, s) && st.grants.memory && rows[s.id].payload.Remember?)
            && (st'.pump.Recalling? ==> s.dedup.ReviewDedup? && st'.pump.cursor == |st.w.memories| && st'.pump.page == 0)
            && (Quiescent(st'.pump) || st'.pump.Calling? || st'.pump.Recalling?)
  {
    RunKeepsInv(start, es);
    BeginSends(Run(start, es), now);
  }

  lemma BeginSends(st: State, now: int)
    requires Inv(st) && Enabled(st, Begin(now))
    ensures var st' := BeginRow(st, now); var s, rows := st.pump.todo[0], st.w.rows;
            && s.id < |rows|
            && (!Unchanged(rows, s) ==> st'.w == st.w && Quiescent(st'.pump))
            && (!Quiescent(st'.pump) ==>
                  && st'.w == st.w && Unchanged(rows, s) && st'.pump.snap == s
                  && s.dedup == rows[s.id].dedup && s.payload == rows[s.id].payload)
            && (st'.pump.Calling? <==>
                  Unchanged(rows, s) && st.grants.scheduler && (rows[s.id].payload.Upsert? || rows[s.id].payload.Delete?))
            && (st'.pump.Calling? ==> s.dedup.RoutineDedup? && SaysNow(st.w, s.dedup.id, s.payload) && !st'.pump.landed)
            && (st'.pump.Recalling? <==> Unchanged(rows, s) && st.grants.memory && rows[s.id].payload.Remember?)
            && (st'.pump.Recalling? ==> s.dedup.ReviewDedup? && st'.pump.cursor == |st.w.memories| && st'.pump.page == 0)
            && (Quiescent(st'.pump) || st'.pump.Calling? || st'.pump.Recalling?)
  {
    hide Settled, MarkersUnique, DoneRemembered, ReviewInv, UniqueLive, MarkFailed, MarkRetry;
    var s := st.pump.todo[0];
    assert SnapOk(st.w.rows, s);
    if Unchanged(st.w.rows, s) {
      assert Live(st.w.rows[s.id]);
      assert PayloadFits(s.dedup, s.payload);
    }
  }

  /** Taking up a row writes only where no call could help: a payload of a known
      kind that does not parse fails for good, and a kind this build does not know
      waits an hour, uncounted. */
  lemma BeginWritesOnly(start: State, es: seq<Event>, now: int)
    requires Fresh(start) && Valid(start, es) && Enabled(Run(start, es), Begin(now))
    ensures var st, st' := Run(start, es), Step(Run(start, es), Begin(now));
            var s, rows, rows' := st.pump.todo[0], st.w.rows, st'.w.rows;
            && st'.w == st.w.(rows := rows') && |rows'| == |rows|
            && (forall j :: 0 <= j < |rows| && j != s.id ==> rows'[j] == rows[j])
            && (if !Unchanged(rows, s) then rows' == rows
                else if rows[s.id].payload.Malformed? then
                  rows'[s.id].status == Failed(BadDesired) && rows'[s.id].payload == rows[s.id].payload
                else if rows[s.id].payload.Unrecognized? then
                  rows'[s.id].status == Pending && rows'[s.id].nextAt == Some(now + 3600) && rows'[s.id].other == rows[s.id].other
                else rows' == rows)
  {
    RunKeepsInv(start, es);
    var st := Run(start, es);
    hide Inv, Valid, Run;
    BeginWritesHere(st, now);
  }

  lemma BeginWritesHere(st: State, now: int)
    requires Inv(st) && Enabled(st, Begin(now))
    ensures var st' := BeginRow(st, now); var s, rows, rows' := st.pump.todo[0], st.w.rows, st'.w.rows;
            && st'.w == st.w.(rows := rows') && |rows'| == |rows| && s.id < |rows|
            && (forall j :: 0 <= j < |rows| && j != s.id ==> rows'[j] == rows[j])
            && (if !Unchanged(rows, s) then rows' == rows
                else if rows[s.id].payload.Malformed? then
                  rows'[s.id].status == Failed(BadDesired) && rows'[s.id].payload == rows[s.id].payload
                else if rows[s.id].payload.Unrecognized? then
                  rows'[s.id].status == Pending && rows'[s.id].nextAt == Some(now + 3600) && rows'[s.id].other == rows[s.id].other
                else rows' == rows)
  {
    hide Settled, MarkersUnique, DoneRemembered, ReviewInv, UniqueLive, LiveRowsCurrent;
    assert SnapOk(st.w.rows, st.pump.todo[0]);
  }

  ghost predicate InBatch(todo: seq<Snap>, i: nat) {
    exists k :: 0 <= k < |todo| && todo[k].id == i
  }

  /** A batch is exactly the rows that wait and whose time has come: none is sent
      before its retry is due, and none that is due is left out. */
  lemma BatchIsDue(st: State, now: int, i: nat)
    requires st.pump.Idle? && i < |st.w.rows|
    ensures InBatch(Unsettled(Step(st, ReadBatch(now)).pump), i) <==>
              st.w.rows[i].status == Pending && (st.w.rows[i].nextAt.None? || st.w.rows[i].nextAt.value <= now)
  {
    var todo := DueFrom(st.w.rows, 0, now);
    assert Unsettled(Step(st, ReadBatch(now)).pump) == todo;
    if IsDue(st.w.rows[i], now) {
      assert SnapOf(st.w.rows, i) in todo;
      var k :| 0 <= k < |todo| && todo[k] == SnapOf(st.w.rows, i);
      assert todo[k].id == i;
    }
  }

  /** The error policy, failure by failure. */
  lemma ReplyOutcomes(rows: seq<Row>, s: Snap, reply: Reply, now: int)
    requires Unchanged(rows, s)
    ensures var (rows', outcome) := Classify(rows, s, reply, now); var r, r' := rows[s.id], rows'[s.id];
            && (reply.Ok? ==> outcome == Continue && r'.status == Done && r'.ref == reply.value)
            && (reply.Err? ==>
                  match reply.error
                  case ConnectionLost => rows' == rows && outcome == StopBatch
                  case Revoked => rows' == rows && outcome == RevokedPump
                  case Forbidden => r'.status == Failed(ForbiddenKind) && outcome == Continue
                  case QuotaExceeded => r'.status == Failed(QuotaKind) && outcome == Continue
                  case InvalidParams => r'.status == Failed(InvalidParamsKind) && outcome == Continue
                  case TokenInvalid => r'.status == Failed(TokenInvalidKind) && outcome == Continue
                  case PayloadTooLarge => r'.status == Failed(PayloadTooLargeKind) && outcome == Continue
                  case NotFound => outcome == Continue && if s.payload.Delete? then r'.status == Done else Unclear(r, r', s, now)
                  case Timeout => outcome == Continue && Unclear(r, r', s, now)
                  case NotSent => outcome == Continue && Unclear(r, r', s, now)
                  case RequestNotInFlight => outcome == Continue && Unclear(r, r', s, now)
                  case OtherError => outcome == Continue && Unclear(r, r', s, now)
                  case _ => outcome == StopBatch && LaterUncounted(r, r', s, now))
  {
    hide BackoffAfter;
  }

  /** Tried again after the backoff, without being held against the row. */
  predicate LaterUncounted(r: Row, r': Row, s: Snap, now: int) {
    r'.status == Pending && r'.other == r.other && r'.attempts == r.attempts + 1 && r'.nextAt == Some(now + BackoffAfter(s.attempts + 1))
  }

  /** A failure nobody can explain: counted and tried again, given up on the twentieth. */
  predicate Unclear(r: Row, r': Row, s: Snap, now: int) {
    if s.other >= 19 then r'.status == Failed(Exhausted)
    else
      && r'.status == Pending && r'.other == r.other + 1 && r'.attempts == r.attempts + 1
      && r'.nextAt == Some(now + BackoffAfter(s.attempts + 1))
  }

  const STOPPERS: set<ClientError> := {ConnectionLost, RateLimited, Busy, NotReady, Draining}

  /** After a reply the pump goes on with the next row, waits for its next turn, or
      stops for good, as the reply says; a stopped pump does nothing until the next
      generation. */
  lemma ReplyMoves(st: State, reply: Reply, now: int)
    requires Enabled(st, Answer(reply, now))
    ensures var next := Step(st, Answer(reply, now)).pump; var todo := st.pump.todo;
            && (reply.Err? && reply.error.Revoked? ==> next.Stopped?)
            && (reply.Err? && reply.error in STOPPERS ==> next.Idle?)
            && (next.Batch? <==> todo != [] && (reply.Ok? || (reply.error !in STOPPERS && reply.error != Revoked)))
            && (next.Batch? ==> next.todo == todo)
            && (next.Batch? || next.Idle? || next.Stopped?)
  {
    hide MarkDone, MarkFailed, MarkRetry, BackoffAfter, Names;
  }

  lemma StoppedStays(st: State, e: Event)
    ensures st.pump.Stopped? && IsPump(e) ==> !Enabled(st, e)
  {
  }

  /** The pre-check reads the history from its newest end: a marker found ends it
      with that memory; only a scan that reached the beginning without one allows
      a `remember`; and a page limit reached before that settles nothing. */
  lemma RecallOutcomes(st: State, lo: nat)
    requires Enabled(st, RecallPage(lo))
    ensures var next, d := Step(st, RecallPage(lo)).pump, st.pump.snap.dedup;
            var m, hi := st.w.memories, st.pump.cursor;
            && Step(st, RecallPage(lo)).w == st.w && next.snap == st.pump.snap && next.todo == st.pump.todo
            && (next.Concluded? && next.verdict.Ok? <==> exists i :: lo <= i < hi && m[i].marker == Some(d))
            && (next.Concluded? && next.verdict.Ok? ==>
                  && next.verdict.value.Some? && lo <= next.verdict.value.value < hi && m[next.verdict.value.value].marker == Some(d)
                  && forall i :: next.verdict.value.value < i < hi ==> m[i].marker != Some(d))
            && (next.Remembering? <==> lo == 0 && forall i :: 0 <= i < hi ==> m[i].marker != Some(d))
            && (next.Remembering? ==> !next.landed)
            && (next.Recalling? ==> next.cursor == lo && next.page == st.pump.page + 1 < st.grants.maxPages)
            && (next.Concluded? && next.verdict.Err? ==> next.verdict.error == OtherError && st.pump.page + 1 >= st.grants.maxPages)
            && (next.Concluded? || next.Recalling? || next.Remembering?)
  {
    var found := NewestMarker(st.w.memories, st.pump.snap.dedup, lo, st.pump.cursor);
    if found.Some? {
      assert st.w.memories[found.value].marker == Some(st.pump.snap.dedup);
    }
  }

  /** What landing a call does to the kernel: an upsert asserts spec and enabled,
      clears a system-side disable and leaves the human's suspension alone; a
      delete removes the key; every other key stays. A remember appends one memory. */
  lemma LandingDoes(st: State)
    requires Inv(st) && Enabled(st, Land)
    ensures var w, w', p := st.w, Step(st, Land).w, st.pump.snap.payload;
            if st.pump.Remembering? then
              w' == w.(memories := w.memories + [Memory(Some(st.pump.snap.dedup), p.summary)])
            else
              && w' == w.(scheds := w'.scheds) && (p.Upsert? || p.Delete?)
              && (forall key :: key != p.key ==> (key in w'.scheds <==> key in w.scheds) && (key in w.scheds ==> w'.scheds[key] == w.scheds[key]))
              && (p.Delete? <==> p.key !in w'.scheds)
              && (p.Upsert? ==>
                    w'.scheds[p.key] == Sched(Cron(p.cron, Some(p.tz)), p.enabled, p.key in w.scheds && w.scheds[p.key].suspended, false))
  {
    hide Settled, MarkersUnique, DoneRemembered, ReviewInv, UniqueLive, LiveRowsCurrent, TodoOk;
    assert PayloadFits(st.pump.snap.dedup, st.pump.snap.payload);
  }

  /** What happens on the kernel's side without the pump: suspending and disabling move
      one flag of one schedule that is there, a foreign memory is appended, and a
      restart leaves both sides as they are and the pump idle. */
  lemma OthersDo(st: State, e: Event, key: string)
    requires Enabled(st, e)
    ensures var w, w' := st.w, Step(st, e).w;
            && (e.Suspend? || e.Disable? ==>
                  && w' == w.(scheds := w'.scheds) && (key in w'.scheds <==> key in w.scheds)
                  && (key in w.scheds && key != e.key ==> w'.scheds[key] == w.scheds[key]))
            && (e.Suspend? && e.key in w.scheds ==>
                  var k := w.scheds[e.key]; w'.scheds[e.key] == Sched(k.spec, k.enabled, e.on, k.disabled))
            && (e.Disable? && e.key in w.scheds ==>
                  var k := w.scheds[e.key]; w'.scheds[e.key] == Sched(k.spec, k.enabled, k.suspended, true))
            && (e.ForeignMemory? ==> w' == w.(memories := w.memories + [Memory(None, e.text)]))
            && (e.Restart? ==> Step(st, e) == State(w, Idle, e.grants))
  {
    hide CreateRoutine, UpdateRoutine, TransitionRoutine, FinalizeReview, EnqueueOther, CorrectUpsert, CorrectDelete;
  }
}
