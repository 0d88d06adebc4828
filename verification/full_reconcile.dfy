/** The full pass: compare the kernel's whole `list` with the Routine table and
    queue a correction for every mismatch; then drain. */
module FullReconcile {
  import opened Prelude
  import opened KernelKey
  import opened Cron
  import opened Outbox
  import opened Protocol
  import opened ProtocolSafety
  import opened Reconciler

  /** Case and spacing of the cron are not drift; the zone is trimmed only. */
  predicate SpecMatches(spec: Spec, cron: string, tz: string) {
    spec.Cron? && NormalizeCron(spec.expr) == NormalizeCron(cron)
    && spec.tz.Some? && Trim(spec.tz.value) == Trim(tz)
  }

  predicate IsLocal(routines: map<string, Routine>, id: string) {
    id in routines && !routines[id].status.Retired?
  }

  /** The comparison is exact: the same fields up to letter case and spacing, and
      the same zone up to the space around it. */
  lemma SpecMatchesExact(spec: Spec, cron: string, tz: string)
    ensures SpecMatches(spec, cron, tz) <==>
              && spec.Cron? && UpperWords(Words(spec.expr)) == UpperWords(Words(cron))
              && spec.tz.Some? && Trim(spec.tz.value) == Trim(tz)
  {
    if spec.Cron? {
      NormalizeCronExact(spec.expr, cron);
    }
    hide NormalizeCron, Words, UpperWords, Trim;
  }

  /** A local Routine the kernel misses, or holds differently, or has disabled
      itself; what the human suspended is not looked at any further. */
  predicate Needs(routines: map<string, Routine>, scheds: map<string, Sched>, id: string) {
    && IsLocal(routines, id)
    && (RoutineKey(id) !in scheds
        || (var k := scheds[RoutineKey(id)];
            !k.suspended
            && (k.disabled
                || !SpecMatches(k.spec, routines[id].cron, routines[id].tz)
                || k.enabled != routines[id].status.Active?)))
  }

  ghost predicate LocalKey(routines: map<string, Routine>, key: string) {
    exists id :: id in routines && IsLocal(routines, id) && RoutineKey(id) == key
  }

  /** A key under Sin90's own prefix with no active or paused Routine behind it. */
  ghost predicate Orphan(routines: map<string, Routine>, scheds: map<string, Sched>, key: string) {
    key in scheds && HasPrefix(key) && !LocalKey(routines, key)
  }

  ghost predicate LowerKeys(scheds: map<string, Sched>) {
    forall key :: key in scheds ==> LowerKey(key)
  }

  /** Nothing for a full pass to do. */
  ghost predicate Converged(w: World) {
    && (forall id :: !Needs(w.routines, w.scheds, id))
    && (forall key :: !Orphan(w.routines, w.scheds, key))
  }

  /** What a pass over the snapshot has to leave queued, and may leave queued. */
  ghost predicate Corrects(routines: map<string, Routine>, scheds: map<string, Sched>, d: DedupKey) {
    && d.RoutineDedup?
    && (Needs(routines, scheds, d.id) || (exists key :: Orphan(routines, scheds, key) && RecoveredId(key) == d.id))
  }

  ghost predicate QueuedFrom(w: World, rows: seq<Row>) {
    && |w.rows| <= |rows|
    && (forall i :: 0 <= i < |w.rows| && !Corrects(w.routines, w.scheds, w.rows[i].dedup) ==> rows[i] == w.rows[i])
    && (forall i :: |w.rows| <= i < |rows| ==> Corrects(w.routines, w.scheds, rows[i].dedup))
    && (forall i :: 0 <= i < |w.rows| ==> rows[i].dedup == w.rows[i].dedup)
    && KeepsPending(w.rows, rows)
    && (forall i :: 0 <= i < |rows| && rows[i].status.Pending? ==>
          (i < |w.rows| && rows[i] == w.rows[i]) || rows[i].nextAt.None?)
  }

  /** One correction in a quiet pass: the mismatch is queued, nothing else moves. */
  lemma QueueMore(w: World, now: World, id: string, key: string, now': World)
    requires StoreInv(w) && QuietSoFar(w, now)
    requires Canonical(id) && Corrects(w.routines, w.scheds, RoutineDedup(id))
    requires (IsLocal(w.routines, id) && now' == CorrectUpsert(now, id))
             || (!IsLocal(w.routines, id) && key == RoutineKey(id) && now' == CorrectDelete(now, id, key))
    ensures QuietSoFar(w, now') && HasPending(now'.rows, RoutineDedup(id))
    ensures KeepsPending(now.rows, now'.rows)
  {
    CorrectionsKeepInv(now, id, key);
    var d, p := RoutineDedup(id), Desired(now.routines, id);
    if !AnyPending(now.rows, d) {
      assert now' == now.(rows := UpsertOutbox(now.rows, d, p));
      assert UniqueLive(now.rows);
      hide StoreInv, Corrects, Desired, IsLocal, Canonical, RoutineKey, UpsertOutbox, UniqueLive;
      QueuePending(now.rows, d, p);
      QueueOne(w, now.rows, d, p);
    }
  }

  lemma QueuePending(rows: seq<Row>, d: DedupKey, p: Payload)
    requires UniqueLive(rows)
    ensures KeepsPending(rows, UpsertOutbox(rows, d, p)) && HasPending(UpsertOutbox(rows, d, p), d)
  {
    UpsertOutboxEffect(rows, d, p);
    hide UpsertOutbox, UniqueLive;
    var rows' := UpsertOutbox(rows, d, p);
    forall e | HasPending(rows, e) ensures HasPending(rows', e) {
      var i :| 0 <= i < |rows| && rows[i].dedup == e && rows[i].status.Pending?;
      assert rows'[i].dedup == e && rows'[i].status.Pending?;
    }
  }

  lemma QueueOne(w: World, rows: seq<Row>, d: DedupKey, p: Payload)
    requires UniqueLive(rows) && QueuedFrom(w, rows) && Corrects(w.routines, w.scheds, d)
    ensures QueuedFrom(w, UpsertOutbox(rows, d, p))
  {
    QueuePending(rows, d, p);
    UpsertOutboxEffect(rows, d, p);
    hide UpsertOutbox, UniqueLive, Corrects, HasPending;
  }

  ghost predicate KeepsPending(rows: seq<Row>, rows': seq<Row>) {
    forall d :: HasPending(rows, d) ==> HasPending(rows', d)
  }

  /** A pass nobody interfered with has changed nothing but the rows it queued and,
      at its end, the column of suspended Routines. */
  ghost predicate QuietSoFar(w: World, now: World) {
    now == w.(rows := now.rows, held := now.held) && StoreInv(now) && QueuedFrom(w, now.rows)
  }

  /** The active and paused Routines whose schedule the human holds suspended. */
  function HeldIn(routines: map<string, Routine>, scheds: map<string, Sched>): set<string> {
    set id | id in routines && IsLocal(routines, id) && RoutineKey(id) in scheds && scheds[RoutineKey(id)].suspended
  }

  ghost predicate Quiet(gap: nat -> seq<Event>) {
    forall k :: gap(k) == []
  }

  ghost predicate AllEnv(gap: nat -> seq<Event>) {
    forall k :: Env(gap(k))
  }

  /** One correction, after whatever other tasks write first. */
  method Correct(d: Daemon, id: string, key: Option<string>, before: seq<Event>,
                 ghost w: World, ghost st: State, ghost done: seq<Event>)
    returns (ghost trace: seq<Event>)
    requires Env(before) && StoreInv(w)
    requires Leads(st, done, d.At(Idle))
    requires key.None? ==> IsLocal(w.routines, id)
    requires key.Some? ==> HasPrefix(key.value) && LowerKey(key.value) && id == RecoveredId(key.value)
    modifies d
    ensures Leads(st, trace, d.At(Idle))
    ensures before == [] && QuietSoFar(w, old(d.Now())) && Corrects(w.routines, w.scheds, RoutineDedup(id))
            && (key.Some? ==> !IsLocal(w.routines, id)) ==>
              QuietSoFar(w, d.Now()) && HasPending(d.rows, RoutineDedup(id)) && KeepsPending(old(d.rows), d.rows)
  {
    LeadsEnv(st, done, d.At(Idle), before);
    d.Interfere(before);
    var e := if key.None? then FixUpsert(id) else FixDelete(key.value);
    LeadsStep(st, done + before, d.At(Idle), e);
    trace := done + before + [e];
    ghost var now := d.Now();
    if key.None? {
      d.EnqueueUpsertForRoutine(id);
    } else {
      KeyRoundTrip("", key.value);
      d.EnqueueDeleteForOrphan(id, key.value);
    }
    if before == [] && QuietSoFar(w, now) && Corrects(w.routines, w.scheds, RoutineDedup(id))
       && (key.Some? ==> !IsLocal(w.routines, id)) {
      QueueMore(w, now, id, if key.Some? then key.value else "", d.Now());
    }
  }

  /** The verdict on one local Routine: does it need a correction? */
  method Compare(kernel: map<string, Sched>, id: string, r: Routine) returns (fix: bool, suspended: bool)
    requires !r.status.Retired?
    ensures fix <==> Needs(map[id := r], kernel, id)
    ensures fix <==>
              (RoutineKey(id) in kernel ==>
                 var k := kernel[RoutineKey(id)];
                 !k.suspended
                 && (k.disabled || k.enabled != (r.status == Active)
                     || !(k.spec.Cron? && UpperWords(Words(k.spec.expr)) == UpperWords(Words(r.cron)))
                     || !(k.spec.tz.Some? && Trim(k.spec.tz.value) == Trim(r.tz))))
    ensures suspended <==> RoutineKey(id) in kernel && kernel[RoutineKey(id)].suspended
  {
    hide Words, UpperWords, Trim, NormalizeCron, SpecMatches, RoutineKey;
    var key := RoutineKey(id);
    if key in kernel {
      SpecMatchesExact(kernel[key].spec, r.cron, r.tz);
    }
    if key !in kernel {
      return true, false;
    }
    if kernel[key].suspended {
      return false, true;
    }
    var recovery := kernel[key].disabled;
    var drifted := !SpecMatches(kernel[key].spec, r.cron, r.tz) || kernel[key].enabled != r.status.Active?;
    return recovery || drifted, false;
  }

  lemma NotKnownIsNotLocal(routines: map<string, Routine>, key: string)
    requires forall id :: id in routines && IsLocal(routines, id) ==> RoutineKey(id) != key
    ensures !LocalKey(routines, key)
  {
  }

  lemma NeedsCorrecting(routines: map<string, Routine>, scheds: map<string, Sched>, id: string)
    requires IsLocal(routines, id)
    ensures Needs(map[id := routines[id]], scheds, id) <==> Needs(routines, scheds, id)
    ensures Needs(routines, scheds, id) ==> Corrects(routines, scheds, RoutineDedup(id))
  {
    hide RoutineKey, SpecMatches;
  }

  lemma OrphanCorrecting(routines: map<string, Routine>, scheds: map<string, Sched>, key: string)
    requires HasPrefix(key) && LowerKey(key) && key in scheds && !LocalKey(routines, key)
    ensures Corrects(routines, scheds, RoutineDedup(RecoveredId(key))) && !IsLocal(routines, RecoveredId(key))
  {
    KeyRoundTrip("", key);
    hide RoutineKey, RecoveredId, LowerKey;
    assert Orphan(routines, scheds, key);
  }

  lemma QuietAtStart(w: World)
    requires StoreInv(w)
    ensures QuietSoFar(w, w)
  {
    hide StoreInv, Corrects;
  }

  /** The column is nobody else's business. */
  lemma QuietAtEnd(w: World, now: World, ids: set<string>)
    requires QuietSoFar(w, now) && ids <= w.routines.Keys
    ensures QuietSoFar(w, HoldRoutines(now, ids)) && HoldRoutines(now, ids).held == ids
  {
    hide QueuedFrom, UniqueLive, RowsFit;
    assert ids * w.routines.Keys == ids;
  }

  /** First loop: every local Routine against the snapshot. */
  method QueueUpserts(d: Daemon, local: map<string, Routine>, kernel: map<string, Sched>, gap: nat -> seq<Event>,
                      ghost w: World, ghost st: State, ghost done: seq<Event>)
    returns (suspended: set<string>, ghost trace: seq<Event>)
    requires AllEnv(gap) && StoreInv(w)
    requires local == map id | id in w.routines && IsLocal(w.routines, id) :: w.routines[id]
    requires Leads(st, done, d.At(Idle))
    requires Quiet(gap) ==> kernel == w.scheds && QuietSoFar(w, d.Now())
    modifies d
    ensures Leads(st, trace, d.At(Idle))
    ensures suspended == set id | id in local && RoutineKey(id) in kernel && kernel[RoutineKey(id)].suspended
    ensures Quiet(gap) ==> QuietSoFar(w, d.Now())
    ensures Quiet(gap) ==> forall id :: Needs(w.routines, w.scheds, id) ==> HasPending(d.rows, RoutineDedup(id))
    ensures Quiet(gap) ==> KeepsPending(old(d.rows), d.rows)
  {
    hide Leads, QuietSoFar, StoreInv, HasPending, RoutineKey, Corrects;
    suspended, trace := {}, done;
    var todo := local.Keys;
    var n := 1;
    while todo != {}
      invariant n >= 1 && todo <= local.Keys
      invariant Leads(st, trace, d.At(Idle))
      invariant suspended == set id | id in local && id !in todo && RoutineKey(id) in kernel && kernel[RoutineKey(id)].suspended
      invariant Quiet(gap) ==> QuietSoFar(w, d.Now())
      invariant Quiet(gap) ==> forall id :: id in local && id !in todo && Needs(w.routines, w.scheds, id)
                                 ==> HasPending(d.rows, RoutineDedup(id))
      invariant Quiet(gap) ==> KeepsPending(old(d.rows), d.rows)
      decreases todo
    {
      var id :| id in todo;
      todo := todo - {id};
      var fix, held := Compare(kernel, id, local[id]);
      NeedsCorrecting(w.routines, kernel, id);
      if held {
        suspended := suspended + {id};
      }
      if fix {
        trace := Correct(d, id, None, gap(n), w, st, trace);
        n := n + 1;
      }
    }
  }

  /** Second loop: every kernel key without a local Routine behind it. */
  method QueueDeletes(d: Daemon, local: map<string, Routine>, kernel: map<string, Sched>, gap: nat -> seq<Event>,
                      ghost w: World, ghost st: State, ghost done: seq<Event>)
    returns (ghost trace: seq<Event>)
    requires AllEnv(gap) && StoreInv(w) && LowerKeys(kernel)
    requires local == map id | id in w.routines && IsLocal(w.routines, id) :: w.routines[id]
    requires Leads(st, done, d.At(Idle))
    requires Quiet(gap) ==> kernel == w.scheds && QuietSoFar(w, d.Now())
    modifies d
    ensures Leads(st, trace, d.At(Idle))
    ensures Quiet(gap) ==> QuietSoFar(w, d.Now())
    ensures Quiet(gap) ==> forall key :: Orphan(w.routines, w.scheds, key) ==> HasPending(d.rows, RoutineDedup(RecoveredId(key)))
    ensures Quiet(gap) ==> KeepsPending(old(d.rows), d.rows)
  {
    hide Leads, QuietSoFar, StoreInv, HasPending, RoutineKey, RecoveredId, Corrects, LowerKey;
    trace := done;
    var known := set id | id in local :: RoutineKey(id);
    var todo := kernel.Keys;
    var n := |local| + 1;
    while todo != {}
      invariant n >= 1 && todo <= kernel.Keys
      invariant Leads(st, trace, d.At(Idle))
      invariant Quiet(gap) ==> QuietSoFar(w, d.Now())
      invariant Quiet(gap) ==> forall key :: key in kernel && key !in todo && Orphan(w.routines, w.scheds, key)
                                 ==> HasPending(d.rows, RoutineDedup(RecoveredId(key)))
      invariant Quiet(gap) ==> KeepsPending(old(d.rows), d.rows)
      decreases todo
    {
      var key :| key in todo;
      todo := todo - {key};
      if key !in known && HasPrefix(key) {
        NotKnownIsNotLocal(w.routines, key);
        OrphanCorrecting(w.routines, kernel, key);
        trace := Correct(d, RecoveredId(key), Some(key), gap(n), w, st, trace);
        n := n + 1;
      }
    }
  }

  /** The comparison pass. Other tasks write while it waits (`gap`); its own
      decisions come from a `list` snapshot that may be arbitrarily old by the
      time each correction is written, so the run it performs is one of the
      protocol's. When nobody interferes, it queues exactly the mismatches. The
      column of suspended Routines is rebuilt last, from that snapshot. */
  method ReconcileFull(d: Daemon, listFails: Option<ClientError>, gap: nat -> seq<Event>)
    returns (failure: Option<ClientError>, suspended: set<string>, ghost trace: seq<Event>)
    requires AllEnv(gap)
    requires StoreInv(d.Now()) && LowerKeys(d.scheds)
    modifies d
    ensures Leads(old(d.At(Idle)), trace, d.At(Idle))
    ensures !d.grants.scheduler ==> d.Now() == old(d.Now()) && failure.None?
    ensures d.grants.scheduler ==> failure == listFails
    ensures Quiet(gap) && d.grants.scheduler && listFails.None? ==>
              var w := old(d.Now());
              && QuietSoFar(w, d.Now())
              && (forall id :: Needs(w.routines, w.scheds, id) ==> HasPending(d.rows, RoutineDedup(id)))
              && (forall key :: Orphan(w.routines, w.scheds, key) ==> HasPending(d.rows, RoutineDedup(RecoveredId(key))))
              && d.held == HeldIn(w.routines, w.scheds)
    ensures d.grants.scheduler && listFails.None? ==>
              var w := old(d.Now());
              suspended == HeldIn(w.routines, EnvRun(w, gap(0)).scheds) && d.held == suspended * d.routines.Keys
    ensures Quiet(gap) && listFails.Some? ==> d.Now() == old(d.Now())
  {
    hide Leads, QuietSoFar, StoreInv, HasPending, Needs, Orphan, RoutineKey, EnvStep, Step, Enabled, SpecMatches, Corrects, LowerKey;
    suspended, failure, trace := {}, None, [];
    ghost var st := d.At(Idle);
    LeadsNowhere(st);
    if !d.grants.scheduler {
      return;
    }
    ghost var w := d.Now();
    QuietAtStart(w);
    NothingPerformed(w);
    var local := map id | id in d.routines && IsLocal(d.routines, id) :: d.routines[id];
    LeadsEnv(st, trace, d.At(Idle), gap(0));
    d.Interfere(gap(0));
    trace := trace + gap(0);
    EnvRunLowerKeys(w, gap(0));
    if listFails.Some? {
      return listFails, {}, trace;
    }
    var kernel := d.scheds;
    suspended, trace := QueueUpserts(d, local, kernel, gap, w, st, trace);
    trace := QueueDeletes(d, local, kernel, gap, w, st, trace);
    var last := |local| + |kernel| + 1;
    if Quiet(gap) {
      QuietAtEnd(w, d.Now(), suspended);
    }
    trace := RebuildHeld(d, suspended, gap(last), st, trace);
  }

  lemma HoldStep(st: State, ids: set<string>)
    ensures Enabled(st, Hold(ids)) && Step(st, Hold(ids)) == st.(w := HoldRoutines(st.w, ids))
  {
  }

  /** The last write of a pass, after whatever other tasks write first. */
  method RebuildHeld(d: Daemon, ids: set<string>, before: seq<Event>, ghost st: State, ghost done: seq<Event>)
    returns (ghost trace: seq<Event>)
    requires Env(before) && Leads(st, done, d.At(Idle))
    modifies d
    ensures Leads(st, trace, d.At(Idle)) && d.held == ids * d.routines.Keys
    ensures before == [] ==> d.Now() == HoldRoutines(old(d.Now()), ids)
  {
    hide Leads, EnvStep, Step, Enabled;
    NothingPerformed(d.Now());
    LeadsEnv(st, done, d.At(Idle), before);
    d.Interfere(before);
    HoldStep(d.At(Idle), ids);
    LeadsStep(st, done + before, d.At(Idle), Hold(ids));
    d.SetHeld(ids);
    trace := done + before + [Hold(ids)];
  }

  /** The kernel's keys have no upper-case letters, whatever a run writes there. */
  lemma {:induction false} RunKeepsLowerKeys(st: State, es: seq<Event>)
    requires Inv(st) && Valid(st, es) && LowerKeys(st.w.scheds)
    ensures LowerKeys(Run(st, es).w.scheds)
    decreases |es|
  {
    if es != [] {
      StepKeepsInv(st, es[0]);
      StepKeepsLowerKeys(st, es[0]);
      hide Inv, Step, Enabled, LowerKeys;
      RunKeepsLowerKeys(Step(st, es[0]), es[1..]);
    }
  }

  lemma StepKeepsLowerKeys(st: State, e: Event)
    requires Inv(st) && Enabled(st, e) && LowerKeys(st.w.scheds)
    ensures LowerKeys(Step(st, e).w.scheds)
  {
    hide StoreInv, Settled, MarkersUnique, DoneRemembered, ReviewInv, TodoOk, KernelHolds, Classify, NewestMarker, UpsertOutbox, Desired,
      LowerKey;
    if e.Land? && st.pump.Calling? {
      assert PayloadFits(st.pump.snap.dedup, st.pump.snap.payload);
      RoutineKeyIsLower(st.pump.snap.dedup.id);
    }
  }

  lemma RoutineKeyIsLower(id: string)
    ensures LowerKey(RoutineKey(id))
  {
    var key := RoutineKey(id);
    forall i | 0 <= i < |key| ensures !IsAsciiUpper(key[i]) {
      if i >= |PREFIX| {
        assert key[i] == LowerChar(id[i - |PREFIX|]);
      }
    }
  }

  lemma {:induction false} EnvRunLowerKeys(w: World, es: seq<Event>)
    requires Env(es) && LowerKeys(w.scheds)
    ensures LowerKeys(EnvRun(w, es).scheds)
  {
    if es != [] {
      EnvRunLowerKeys(w, es[..|es| - 1]);
    }
  }
}
