/** The reconciler itself, updating the two sides in place. Every await point is
    a gap another task may use; each method's contract says which run of the
    protocol its execution was, so all that is proved of runs holds of it. */
module Reconciler {
  import opened Prelude
  import opened KernelKey
  import opened Outbox
  import opened Protocol

  /** One recall page as the outside world plays it: who writes first, how far
      down the kernel scans, or how the call fails. */
  datatype Page = Page(gap: seq<Event>, lo: nat, failure: Option<ClientError>)

  /** One row's turn: writes before the re-check, while the call is on its way,
      and after the kernel executed it (if it did) but before the reply. */
  datatype Turn = Turn(before: seq<Event>, during: seq<Event>, lands: bool, late: seq<Event>,
                       failure: Option<ClientError>, page: nat -> Page, now: int)

  ghost predicate Env(es: seq<Event>) {
    forall i :: 0 <= i < |es| ==> IsEnv(es[i])
  }

  /** Other tasks do only what other tasks can do. */
  ghost predicate Playable(t: Turn) {
    && Env(t.before) && Env(t.during) && Env(t.late)
    && (forall k :: Env(t.page(k).gap))
  }

  /** Whether the kernel executes the call: a success says that it did, and so does
      a delete's `NotFound`; after any other failure it may or may not have. */
  predicate Executes(t: Turn, p: Payload) {
    t.lands || t.failure.None? || (t.failure.value.NotFound? && p.Delete?)
  }

  /** Nothing else happens, the kernel executes everything it is sent and says so,
      and its recall pages reach the end of the log within the pages allowed. */
  ghost predicate Healthy(t: Turn, now: int, maxPages: nat) {
    && t.before == [] && t.during == [] && t.late == []
    && t.lands && t.failure.None? && t.now == now
    && (forall k :: t.page(k).gap == [] && t.page(k).failure.None?)
    && (exists k: nat :: k < maxPages && t.page(k).lo == 0)
  }

  ghost predicate AllHealthy(turns: nat -> Turn, now: int, maxPages: nat) {
    forall k :: Healthy(turns(k), now, maxPages)
  }

  ghost predicate AllPlayable(turns: nat -> Turn) {
    forall k :: Playable(turns(k))
  }

  lemma HealthyIsPlayable(turns: nat -> Turn, now: int, maxPages: nat)
    requires AllHealthy(turns, now, maxPages)
    ensures AllPlayable(turns)
  {
    forall k ensures Playable(turns(k)) {
      assert Healthy(turns(k), now, maxPages);
    }
  }

  /** Scanning the log in two parts finds what scanning it in one does. */
  lemma {:induction false} NewestSplit(memories: seq<Memory>, d: DedupKey, lo: nat, hi: nat)
    requires lo <= hi <= |memories|
    ensures NewestMarker(memories, d, 0, hi) ==
              if NewestMarker(memories, d, lo, hi).Some? then NewestMarker(memories, d, lo, hi)
              else NewestMarker(memories, d, 0, lo)
    decreases hi
  {
    if lo < hi && memories[hi - 1].marker != Some(d) {
      NewestSplit(memories, d, lo, hi - 1);
    }
  }

  /** What one row's healthy turn amounts to. */
  function LandRow(w: World, g: Grants, s: Snap, now: int): World {
    if !IsCurrent(w.rows, s.id, s.version) then w
    else
      match s.payload
      case Malformed => w.(rows := MarkFailed(w.rows, s.id, s.version, BadDesired))
      case Unrecognized => w.(rows := MarkRetry(w.rows, s.id, s.version, now + UNKNOWN_KIND_RETRY_SECS, false))
      case Remember(_, _) =>
        if !g.memory then w
        else
          var found := NewestMarker(w.memories, s.dedup, 0, |w.memories|);
          if found.Some? then w.(rows := MarkDone(w.rows, s.id, s.version, found))
          else w.(memories := w.memories + [MemoryOf(s)],
                  rows := MarkDone(w.rows, s.id, s.version, Some(|w.memories|)))
      case _ =>
        if !g.scheduler then w
        else w.(scheds := KernelApply(w.scheds, s.payload), rows := MarkDone(w.rows, s.id, s.version, None))
  }

  function LandAll(w: World, g: Grants, todo: seq<Snap>, now: int): World
    decreases |todo|
  {
    if todo == [] then w else LandAll(LandRow(w, g, todo[0], now), g, todo[1..], now)
  }

  /** The run `es` leads from `st` to `to`. */
  ghost predicate Leads(st: State, es: seq<Event>, to: State) {
    Valid(st, es) && Run(st, es) == to
  }

  function EnvRun(w: World, es: seq<Event>): World
    requires Env(es)
  {
    if es == [] then w else EnvStep(EnvRun(w, es[..|es| - 1]), es[|es| - 1])
  }

  lemma NothingPerformed(w: World)
    ensures Env([]) && EnvRun(w, []) == w
  {
  }

  lemma EnvRunNext(w: World, es: seq<Event>, k: nat)
    requires Env(es) && k < |es|
    ensures Env(es[..k]) && Env(es[..k + 1]) && IsEnv(es[k]) && EnvRun(w, es[..k + 1]) == EnvStep(EnvRun(w, es[..k]), es[k])
  {
    hide EnvStep, IsEnv;
    assert es[..k + 1][..k] == es[..k] && es[..k + 1][k] == es[k];
  }

  lemma LeadsNowhere(st: State)
    ensures Leads(st, [], st)
  {
  }

  /** One more event at the end of a run. */
  lemma LeadsStep(st: State, es: seq<Event>, mid: State, e: Event)
    requires Leads(st, es, mid) && Enabled(mid, e)
    ensures Leads(st, es + [e], Step(mid, e))
  {
    assert Valid(Step(mid, e), []) && [e][1..] == [];
    assert Valid(mid, [e]) && Run(mid, [e]) == Step(mid, e);
    RunConcat(st, es, [e]);
  }

  lemma LeadsOn(st: State, es: seq<Event>, mid: State, more: seq<Event>, to: State)
    requires Leads(st, es, mid) && Leads(mid, more, to)
    ensures Leads(st, es + more, to)
  {
    RunConcat(st, es, more);
  }

  /** Other tasks' writes are a run that leaves the pump where it stands. */
  lemma {:induction false} EnvRunIsRun(st: State, es: seq<Event>)
    requires Env(es)
    ensures Leads(st, es, st.(w := EnvRun(st.w, es)))
  {
    if es != [] {
      var init, last := es[..|es| - 1], es[|es| - 1];
      EnvRunIsRun(st, init);
      LeadsStep(st, init, st.(w := EnvRun(st.w, init)), last);
      assert init + [last] == es;
    }
  }

  lemma LeadsEnv(st: State, es: seq<Event>, mid: State, more: seq<Event>)
    requires Leads(st, es, mid) && Env(more)
    ensures Leads(st, es + more, mid.(w := EnvRun(mid.w, more)))
  {
    EnvRunIsRun(mid, more);
    LeadsOn(st, es, mid, more, mid.(w := EnvRun(mid.w, more)));
  }

  /** Other tasks only ever append to the memory log. */
  lemma {:induction false} EnvRunAppends(w: World, es: seq<Event>)
    requires Env(es)
    ensures w.memories <= EnvRun(w, es).memories
  {
    if es != [] {
      EnvRunAppends(w, es[..|es| - 1]);
      EnvStepAppends(EnvRun(w, es[..|es| - 1]), es[|es| - 1]);
      hide EnvStep;
    }
  }

  lemma EnvStepAppends(w: World, e: Event)
    requires IsEnv(e)
    ensures w.memories <= EnvStep(w, e).memories
  {
    hide UpsertOutbox, Desired, AnyPending;
  }

  class Daemon {
    var routines: map<string, Routine>
    var held: set<string>
    var finalized: set<string>
    var rows: seq<Row>
    var scheds: map<string, Sched>
    var memories: seq<Memory>
    const grants: Grants

    constructor (w: World, grants: Grants)
      ensures Now() == w && this.grants == grants
    {
      this.routines, this.held, this.finalized, this.rows := w.routines, w.held, w.finalized, w.rows;
      this.scheds, this.memories := w.scheds, w.memories;
      this.grants := grants;
    }

    function Now(): World
      reads this
    {
      World(routines, held, finalized, rows, scheds, memories)
    }

    // ---------------------------------------------------------- the store

    /** Newest live row of a key, searched from the end of the table. */
    method FindLiveRow(d: DedupKey) returns (found: Option<nat>)
      ensures found == FindLive(rows, d)
    {
      var i := |rows|;
      while i > 0
        invariant 0 <= i <= |rows|
        invariant FindLive(rows, d) == FindLive(rows[..i], d)
      {
        assert rows[..i][..i - 1] == rows[..i - 1];
        if LiveFor(rows[i - 1], d) {
          return Some(i - 1);
        }
        i := i - 1;
      }
      return None;
    }

    method WriteOutbox(d: DedupKey, p: Payload)
      modifies this`rows
      ensures rows == UpsertOutbox(old(rows), d, p)
    {
      var found := FindLiveRow(d);
      if found.Some? {
        rows := rows[found.value := Overwritten(rows[found.value], p)];
      } else {
        rows := rows + [FreshRow(d, p)];
      }
    }

    method StoreRoutine(id: string, r: Routine)
      modifies this`routines, this`rows
      ensures Now() == WriteRoutine(old(Now()), id, r)
    {
      routines := routines[id := r];
      if r.status.Retired? {
        WriteOutbox(RoutineDedup(id), Delete(RoutineKey(id)));
      } else {
        WriteOutbox(RoutineDedup(id), Upsert(RoutineKey(id), r.cron, r.tz, r.status.Active?));
      }
    }

    method AddRoutine(id: string, cron: string, tz: string)
      modifies this`routines, this`rows
      ensures Now() == CreateRoutine(old(Now()), id, cron, tz)
    {
      if id !in routines {
        StoreRoutine(id, Routine(cron, tz, Active));
      }
    }

    method EditRoutine(id: string, cron: string, tz: string)
      modifies this`routines, this`rows
      ensures Now() == UpdateRoutine(old(Now()), id, cron, tz)
    {
      if id !in routines || routines[id].status.Retired? {
        return;
      }
      if cron != routines[id].cron || tz != routines[id].tz {
        StoreRoutine(id, routines[id].(cron := cron, tz := tz));
      }
    }

    method MoveRoutine(id: string, to: RoutineStatus)
      modifies this`routines, this`rows
      ensures Now() == TransitionRoutine(old(Now()), id, to)
    {
      if id in routines && RoutineTransitionAllowed(routines[id].status, to) {
        StoreRoutine(id, routines[id].(status := to));
      }
    }

    method CloseReview(review: string, blank: bool, summary: string)
      modifies this`finalized, this`rows
      ensures Now() == FinalizeReview(old(Now()), review, blank, summary)
    {
      if review !in finalized {
        finalized := finalized + {review};
        if !blank {
          WriteOutbox(ReviewDedup(review), Remember(ReviewDedup(review), summary));
        }
      }
    }

    method EnqueueUpsertForRoutine(id: string)
      modifies this`rows
      ensures Now() == CorrectUpsert(old(Now()), id)
    {
      if id !in routines || routines[id].status.Retired? || AnyPending(rows, RoutineDedup(id)) {
        return;
      }
      WriteOutbox(RoutineDedup(id), Upsert(RoutineKey(id), routines[id].cron, routines[id].tz, routines[id].status.Active?));
    }

    method EnqueueDeleteForOrphan(id: string, key: string)
      modifies this`rows
      ensures Now() == CorrectDelete(old(Now()), id, key)
    {
      if (id in routines && !routines[id].status.Retired?) || AnyPending(rows, RoutineDedup(id)) {
        return;
      }
      WriteOutbox(RoutineDedup(id), Delete(key));
    }

    /** `sync_kernel_suspended_routines`: the column is cleared, then set again for
        exactly these ids. */
    method SetHeld(ids: set<string>)
      modifies this`held
      ensures Now() == HoldRoutines(old(Now()), ids)
    {
      held := {};
      var todo := ids;
      while todo != {}
        invariant todo <= ids && held == (ids - todo) * routines.Keys
        decreases todo
      {
        var id :| id in todo;
        todo := todo - {id};
        if id in routines {
          held := held + {id};
        }
      }
    }

    /** One write of another task. */
    method Perform(e: Event)
      requires IsEnv(e)
      modifies this
      ensures Now() == EnvStep(old(Now()), e)
    {
      match e
      case Create(id, cron, tz) => AddRoutine(id, cron, tz);
      case Update(id, cron, tz) => EditRoutine(id, cron, tz);
      case Transition(id, to) => MoveRoutine(id, to);
      case Finalize(review, blank, summary) => CloseReview(review, blank, summary);
      case Other(name, recognized) => WriteOutbox(OtherDedup(name), if recognized then Malformed else Unrecognized);
      case FixUpsert(id) => EnqueueUpsertForRoutine(id);
      case FixDelete(key) => EnqueueDeleteForOrphan(RecoveredId(key), key);
      case Suspend(key, on) =>
        if key in scheds {
          scheds := scheds[key := scheds[key].(suspended := on)];
        }
      case Disable(key) =>
        if key in scheds {
          scheds := scheds[key := scheds[key].(disabled := true)];
        }
      case Hold(ids) => SetHeld(ids);
      case ForeignMemory(text) => memories := memories + [Memory(None, text)];
    }

    /** Whatever other tasks do while this one waits. */
    method Interfere(es: seq<Event>)
      requires Env(es)
      modifies this
      ensures Now() == EnvRun(old(Now()), es)
    {
      hide *;
      NothingPerformed(Now());
      for k := 0 to |es|
        invariant Env(es[..k]) && Now() == EnvRun(old(Now()), es[..k])
      {
        EnvRunNext(old(Now()), es, k);
        Perform(es[k]);
      }
      assert es[..|es|] == es;
    }

    /** The newest memory with the marker among those a recall page scanned. */
    method FindMarker(d: DedupKey, lo: nat, hi: nat) returns (found: Option<nat>)
      requires lo <= hi <= |memories|
      ensures found == NewestMarker(memories, d, lo, hi)
    {
      var i := hi;
      while i > lo
        invariant lo <= i <= hi
        invariant NewestMarker(memories, d, lo, hi) == NewestMarker(memories, d, lo, i)
      {
        if memories[i - 1].marker == Some(d) {
          return Some(i - 1);
        }
        i := i - 1;
      }
      return None;
    }

    /** Every pending row whose backoff has elapsed, oldest first. */
    method CollectDue(now: int) returns (due: seq<Snap>)
      ensures due == DueFrom(rows, 0, now)
    {
      hide *;
      due := [];
      var i := |rows|;
      DueAtEnd(rows, now);
      while i > 0
        invariant 0 <= i <= |rows|
        invariant due == DueFrom(rows, i, now)
      {
        i := i - 1;
        DueUnfolds(rows, i, now);
        if IsDue(rows[i], now) {
          due := [SnapOf(rows, i)] + due;
        }
      }
    }

    // ----------------------------------------------------------- one row

    /** The write-back half of `apply_one`: one row's reply, classified. */
    method SettleRow(s: Snap, reply: Reply, now: int) returns (outcome: RowOutcome)
      modifies this`rows
      ensures (rows, outcome) == Classify(old(rows), s, reply, now)
    {
      if reply.Ok? {
        rows := MarkDone(rows, s.id, s.version, reply.value);
        return Continue;
      }
      var e := reply.error;
      if e.NotFound? && s.payload.Delete? {
        rows := MarkDone(rows, s.id, s.version, None);
        return Continue;
      } else if e.Revoked? {
        return RevokedPump;
      } else if e.ConnectionLost? {
        return StopBatch;
      } else if IsPermanent(e) {
        rows := MarkFailed(rows, s.id, s.version, PermanentKind(e));
        return Continue;
      } else if IsCapacity(e) {
        rows := MarkRetry(rows, s.id, s.version, now + BackoffAfter(s.attempts + 1), false);
        return StopBatch;
      }
      if s.other + 1 >= EXHAUSTION_THRESHOLD {
        rows := MarkFailed(rows, s.id, s.version, Exhausted);
      } else {
        rows := MarkRetry(rows, s.id, s.version, now + BackoffAfter(s.attempts + 1), true);
      }
      return Continue;
    }

    /** Where the daemon stands, with its pump in the given place. */
    function At(pump: Pump): State
      reads this
    {
      State(Now(), pump, grants)
    }

    /** Sends the row's keyed call and waits for whatever comes back. */
    method CallScheduler(s: Snap, t: Turn, ghost todo: seq<Snap>, ghost st: State, ghost done: seq<Event>)
      returns (reply: Reply, ghost trace: seq<Event>, ghost pump: Pump)
      requires Playable(t)
      requires Leads(st, done, At(Calling(s, todo, false)))
      modifies this
      ensures Leads(st, trace, At(pump)) && Enabled(At(pump), Answer(reply, t.now))
      ensures pump.Calling? && pump.snap == s && pump.todo == todo
      ensures Healthy(t, t.now, grants.maxPages) ==>
                reply == Ok(None) && Now() == old(Now()).(scheds := KernelApply(old(scheds), s.payload))
    {
      pump := Calling(s, todo, false);
      LeadsEnv(st, done, At(pump), t.during);
      Interfere(t.during);
      trace := done + t.during;
      if Executes(t, s.payload) {
        LeadsStep(st, trace, At(pump), Land);
        scheds := KernelApply(scheds, s.payload);
        trace, pump := trace + [Land], Calling(s, todo, true);
        LeadsEnv(st, trace, At(pump), t.late);
        Interfere(t.late);
        trace := trace + t.late;
      }
      reply := if t.failure.None? then Ok(None) else Err(t.failure.value);
    }

    /** One page of the pre-check. `next == 0` says the log has been scanned to its
        end; running out of pages before that is its own, inconclusive, verdict. */
    method ReadPage(s: Snap, p: Page, cursor: nat, page: nat, ghost todo: seq<Snap>, ghost st: State, ghost done: seq<Event>)
      returns (verdict: Option<Reply>, next: nat, ghost trace: seq<Event>, ghost pump: Pump)
      requires page < grants.maxPages && cursor <= |memories|
      requires Leads(st, done, At(Recalling(s, todo, cursor, page)))
      ensures Leads(st, trace, At(pump)) && next <= cursor
      ensures verdict.None? ==>
                && pump == (if next == 0 then Remembering(s, todo, false) else Recalling(s, todo, next, page + 1))
                && (next != 0 ==> page + 1 < grants.maxPages)
      ensures verdict.Some? ==>
                && (pump.Recalling? || pump.Concluded?) && pump.snap == s && pump.todo == todo
                && (pump.Recalling? ==> verdict.value.Err?)
                && (pump.Concluded? ==> pump.verdict == verdict.value)
      ensures p.failure.None? ==>
                var lo := Min(p.lo, cursor);
                var found := NewestMarker(memories, s.dedup, lo, cursor);
                if found.Some? then verdict == Some(Ok(found))
                else if lo == 0 || page + 1 < grants.maxPages then verdict == None && next == lo
                else verdict == Some(Err(OtherError))
    {
      hide NewestMarker, Leads, BeginRow, AfterReply, EnvStep;
      next, trace, pump := 0, done, Recalling(s, todo, cursor, page);
      if p.failure.Some? {
        verdict := Some(Err(p.failure.value));
        return;
      }
      var lo := if p.lo <= cursor then p.lo else cursor;
      var found := FindMarker(s.dedup, lo, cursor);
      LeadsStep(st, done, At(pump), RecallPage(lo));
      trace := done + [RecallPage(lo)];
      if found.Some? {
        verdict, pump := Some(Ok(found)), Concluded(s, todo, Ok(found));
      } else if lo == 0 {
        verdict, pump := None, Remembering(s, todo, false);
      } else if page + 1 >= grants.maxPages {
        verdict, pump := Some(Err(OtherError)), Concluded(s, todo, Err(OtherError));
      } else {
        verdict, next, pump := None, lo, Recalling(s, todo, lo, page + 1);
      }
    }

    /** The paged pre-check: `None` allows a `remember`, anything else is final. */
    method PreCheck(s: Snap, t: Turn, ghost todo: seq<Snap>, ghost st: State, ghost done: seq<Event>)
      returns (verdict: Option<Reply>, ghost trace: seq<Event>, ghost pump: Pump)
      requires Playable(t)
      requires Leads(st, done, At(Recalling(s, todo, |memories|, 0)))
      modifies this
      ensures Leads(st, trace, At(pump))
      ensures verdict.None? ==> pump == Remembering(s, todo, false)
      ensures verdict.Some? ==>
                && (pump.Recalling? || pump.Concluded?) && pump.snap == s && pump.todo == todo
                && Enabled(At(pump), Answer(verdict.value, t.now))
      ensures Healthy(t, t.now, grants.maxPages) ==>
                && Now() == old(Now())
                && var found := NewestMarker(memories, s.dedup, 0, |memories|);
                   verdict == if found.Some? then Some(Ok(found)) else None
    {
      hide Leads, BeginRow, AfterReply, EnvStep, RecallStep, NewestMarker, EnvRun;
      trace := done;
      var cursor: nat := |memories|;
      var page: nat := 0;
      ghost var last: nat := 0;
      if Healthy(t, t.now, grants.maxPages) {
        last :| last < grants.maxPages && t.page(last).lo == 0;
      }
      NothingPerformed(Now());
      while true
        invariant page < grants.maxPages && cursor <= |memories|
        invariant Leads(st, trace, At(Recalling(s, todo, cursor, page)))
        invariant Healthy(t, t.now, grants.maxPages) ==>
                    && Now() == old(Now()) && page <= last < grants.maxPages && t.page(last).lo == 0
                    && NewestMarker(memories, s.dedup, 0, cursor) == NewestMarker(memories, s.dedup, 0, |memories|)
        decreases grants.maxPages - page
      {
        var gap := t.page(page).gap;
        LeadsEnv(st, trace, At(Recalling(s, todo, cursor, page)), gap);
        EnvRunAppends(Now(), gap);
        Interfere(gap);
        trace := trace + gap;
        NewestSplit(memories, s.dedup, Min(t.page(page).lo, cursor), cursor);
        var next: nat;
        verdict, next, trace, pump := ReadPage(s, t.page(page), cursor, page, todo, st, trace);
        if verdict.Some? || next == 0 {
          return;
        }
        cursor, page := next, page + 1;
      }
    }

    /** `remember_once`: the paged pre-check, then at most one `remember`. */
    method RememberOnce(s: Snap, t: Turn, ghost todo: seq<Snap>, ghost st: State, ghost done: seq<Event>)
      returns (reply: Reply, ghost trace: seq<Event>, ghost pump: Pump)
      requires Playable(t)
      requires Leads(st, done, At(Recalling(s, todo, |memories|, 0)))
      modifies this
      ensures Leads(st, trace, At(pump)) && Enabled(At(pump), Answer(reply, t.now))
      ensures (pump.Recalling? || pump.Concluded? || pump.Remembering?) && pump.snap == s && pump.todo == todo
      ensures Healthy(t, t.now, grants.maxPages) ==>
                var found := NewestMarker(old(memories), s.dedup, 0, |old(memories)|);
                if found.Some? then reply == Ok(found) && Now() == old(Now())
                else
                  && reply == Ok(Some(|old(memories)|))
                  && Now() == old(Now()).(memories := old(memories) + [MemoryOf(s)])
    {
      var verdict;
      verdict, trace, pump := PreCheck(s, t, todo, st, done);
      if verdict.Some? {
        return verdict.value, trace, pump;
      }
      LeadsEnv(st, trace, At(pump), t.during);
      Interfere(t.during);
      trace := trace + t.during;
      var id := |memories|;
      if Executes(t, s.payload) {
        LeadsStep(st, trace, At(pump), Land);
        memories := memories + [MemoryOf(s)];
        trace, pump := trace + [Land], Remembering(s, todo, true);
        LeadsEnv(st, trace, At(pump), t.late);
        EnvRunAppends(Now(), t.late);
        Interfere(t.late);
        trace := trace + t.late;
      }
      reply := if t.failure.None? then Ok(Some(id)) else Err(t.failure.value);
    }

    /** The re-check and dispatch: the row's reply, or `None` if no call is due. */
    method Dispatch(s: Snap, t: Turn, ghost batch: seq<Snap>, ghost st: State, ghost done: seq<Event>)
      returns (reply: Option<Reply>, ghost trace: seq<Event>, ghost pump: Pump)
      requires batch != [] && batch[0] == s && Playable(t)
      requires Leads(st, done, At(Batch(batch)))
      modifies this
      ensures Leads(st, trace, At(pump))
      ensures var row := old(rows);
              !(s.id < |row| && row[s.id].status == Pending && row[s.id].version == s.version) ==> reply.None? && Now() == old(Now())
      ensures reply.None? ==> pump == After(batch[1..], Continue)
      ensures reply.Some? ==>
                && (pump.Calling? || pump.Recalling? || pump.Concluded? || pump.Remembering?)
                && pump.snap == s && pump.todo == batch[1..]
                && Enabled(At(pump), Answer(reply.value, t.now))
      ensures Healthy(t, t.now, grants.maxPages) ==>
                && (reply.None? ==> Now() == LandRow(old(Now()), grants, s, t.now))
                && (reply.Some? ==>
                      && reply.value.Ok?
                      && Now().(rows := MarkDone(rows, s.id, s.version, reply.value.value))
                         == LandRow(old(Now()), grants, s, t.now))
    {
      LeadsStep(st, done, At(Batch(batch)), Begin(t.now));
      trace := done + [Begin(t.now)];
      pump := After(batch[1..], Continue);
      if !IsCurrent(rows, s.id, s.version) {
        return None, trace, pump;
      }
      var answer: Reply;
      match s.payload {
        case Malformed =>
          rows := MarkFailed(rows, s.id, s.version, BadDesired);
          return None, trace, pump;
        case Unrecognized =>
          rows := MarkRetry(rows, s.id, s.version, t.now + UNKNOWN_KIND_RETRY_SECS, false);
          return None, trace, pump;
        case Remember(_, _) =>
          if !grants.memory {
            return None, trace, pump;
          }
          answer, trace, pump := RememberOnce(s, t, batch[1..], st, trace);
          return Some(answer), trace, pump;
        case _ =>
          if !grants.scheduler {
            return None, trace, pump;
          }
          answer, trace, pump := CallScheduler(s, t, batch[1..], st, trace);
          return Some(answer), trace, pump;
      }
    }

    /** Lands one row of the batch, whatever happens around it. */
    method ApplyOne(s: Snap, t: Turn, ghost batch: seq<Snap>) returns (outcome: RowOutcome, ghost trace: seq<Event>)
      requires batch != [] && batch[0] == s && Playable(t)
      modifies this
      ensures Leads(old(At(Batch(batch))), trace, At(After(batch[1..], outcome)))
      ensures var w := EnvRun(old(Now()), t.before);
              !(s.id < |w.rows| && w.rows[s.id].status == Pending && w.rows[s.id].version == s.version) ==>
                outcome == Continue && Now() == w
      ensures Healthy(t, t.now, grants.maxPages) ==> outcome == Continue && Now() == LandRow(old(Now()), grants, s, t.now)
    {
      ghost var st := At(Batch(batch));
      LeadsNowhere(st);
      LeadsEnv(st, [], st, t.before);
      Interfere(t.before);
      var reply;
      ghost var pump;
      reply, trace, pump := Dispatch(s, t, batch, st, [] + t.before);
      if reply.None? {
        return Continue, trace;
      }
      LeadsStep(st, trace, At(pump), Answer(reply.value, t.now));
      trace := trace + [Answer(reply.value, t.now)];
      outcome := SettleRow(s, reply.value, t.now);
    }

    /** One pass over whatever was due when it read the list: rows up to the
        first one that says the kernel, not the row, is the problem. */
    method DrainPending(now: int, turns: nat -> Turn) returns (keepRunning: bool, ghost trace: seq<Event>)
      requires AllPlayable(turns)
      modifies this
      ensures Leads(old(At(Idle)), trace, At(if keepRunning then Idle else Stopped))
      ensures trace != [] && trace[0] == ReadBatch(now)
      ensures AllHealthy(turns, now, grants.maxPages) ==>
                keepRunning && Now() == LandAll(old(Now()), grants, DueFrom(old(rows), 0, now), now)
    {
      hide DueFrom, LandAll, LandRow, After, EnvRun, IsEnv, AllHealthy, Healthy, AllPlayable, Playable, Step, Enabled, Valid, Run, Leads;
      ghost var st := At(Idle);
      LeadsNowhere(st);
      var due := CollectDue(now);
      BatchRead(st, now);
      LeadsStep(st, [], st, ReadBatch(now));
      trace := [] + [ReadBatch(now)];
      var k := 0;
      assert due[0..] == due;
      while k < |due|
        invariant 0 <= k <= |due|
        invariant Leads(st, trace, At(After(due[k..], Continue)))
        invariant trace != [] && trace[0] == ReadBatch(now)
        invariant AllHealthy(turns, now, grants.maxPages) ==>
                    LandAll(Now(), grants, due[k..], now) == LandAll(old(Now()), grants, due, now)
      {
        ghost var batch, w := due[k..], Now();
        NextRow(due, k);
        PlayableRow(turns, k, now, grants.maxPages);
        LandAllNext(w, grants, batch, now);
        ghost var mid := At(Batch(batch));
        var outcome;
        ghost var steps;
        outcome, steps := ApplyOne(due[k], turns(k), batch);
        LeadsOn(st, trace, mid, steps, At(After(batch[1..], outcome)));
        trace := trace + steps;
        AfterIs(batch[1..]);
        if outcome == StopBatch {
          return true, trace;
        } else if outcome == RevokedPump {
          return false, trace;
        }
        k := k + 1;
      }
      assert due[|due|..] == [];
      AfterIs([]);
      LandAllEnds(Now(), grants, now);
      return true, trace;
    }
  }

  lemma BatchRead(st: State, now: int)
    requires st.pump.Idle?
    ensures Enabled(st, ReadBatch(now)) && Step(st, ReadBatch(now)) == st.(pump := After(DueFrom(st.w.rows, 0, now), Continue))
  {
  }

  lemma NextRow(due: seq<Snap>, k: nat)
    requires k < |due|
    ensures due[k..] != [] && due[k..][0] == due[k] && due[k..][1..] == due[k + 1..]
    ensures After(due[k..], Continue) == Batch(due[k..])
  {
  }

  lemma AfterIs(todo: seq<Snap>)
    ensures After(todo, StopBatch) == Idle && After(todo, RevokedPump) == Stopped && After([], Continue) == Idle
  {
  }

  lemma PlayableRow(turns: nat -> Turn, k: nat, now: int, maxPages: nat)
    requires AllPlayable(turns)
    ensures Playable(turns(k))
    ensures AllHealthy(turns, now, maxPages) ==> Healthy(turns(k), turns(k).now, maxPages) && turns(k).now == now
  {
    hide Playable;
    if AllHealthy(turns, now, maxPages) {
      assert Healthy(turns(k), now, maxPages);
    }
  }

  lemma LandAllNext(w: World, g: Grants, todo: seq<Snap>, now: int)
    requires todo != []
    ensures LandAll(w, g, todo, now) == LandAll(LandRow(w, g, todo[0], now), g, todo[1..], now)
  {
    hide LandRow;
  }

  lemma LandAllEnds(w: World, g: Grants, now: int)
    ensures LandAll(w, g, [], now) == w
  {
  }
}
