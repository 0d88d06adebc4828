/** With a kernel that executes what it is sent and nobody writing in between,
    one pass and one drain make the kernel match; a second pass is idle. */
module Convergence {
  import opened Prelude
  import opened KernelKey
  import opened Cron
  import opened Outbox
  import opened Protocol
  import opened ProtocolSafety
  import opened Reconciler
  import opened FullReconcile

  predicate SchedulerSnap(s: Snap) {
    s.payload.Upsert? || s.payload.Delete?
  }

  /** Snapshots taken from the table as it stands. */
  ghost predicate Exact(rows: seq<Row>, todo: seq<Snap>) {
    && (forall k :: 0 <= k < |todo| ==>
          todo[k].id < |rows| && rows[todo[k].id].status.Pending? && todo[k] == SnapOf(rows, todo[k].id))
    && (forall j, k :: 0 <= j < k < |todo| ==> todo[j].id < todo[k].id)
  }

  /** Landing one row settles that row and touches the kernel under its key only. */
  lemma LandRowEffect(w: World, g: Grants, todo: seq<Snap>, now: int)
    requires StoreInv(w) && todo != [] && Exact(w.rows, todo)
    ensures var s, w' := todo[0], LandRow(w, g, todo[0], now);
            && StoreInv(w') && Exact(w'.rows, todo[1..])
            && w'.routines == w.routines && w'.held == w.held && |w'.rows| == |w.rows|
            && (forall i :: 0 <= i < |w.rows| && i != s.id ==> w'.rows[i] == w.rows[i])
            && (forall i :: 0 <= i < |w.rows| ==> w'.rows[i].dedup == w.rows[i].dedup)
            && (SchedulerSnap(s) && g.scheduler ==> w'.rows[s.id].status.Done? && w'.scheds == KernelApply(w.scheds, s.payload))
            && (!SchedulerSnap(s) || !g.scheduler ==> w'.scheds == w.scheds)
  {
    var s, w' := todo[0], LandRow(w, g, todo[0], now);
    LandRowMoves(w, g, s, now);
    hide LandRow, KernelApply, Desired, PayloadFits;
    assert forall k :: 0 <= k < |todo| - 1 ==> todo[1..][k] == todo[k + 1];
    forall i | 0 <= i < |w'.rows| && Live(w'.rows[i]) && w'.rows[i].dedup.RoutineDedup?
      ensures w'.rows[i].payload == Desired(w'.routines, w'.rows[i].dedup.id)
    {
      assert Live(w.rows[i]);
    }
  }

  /** What landing moves: its own row, which keeps its key and payload. */
  lemma LandRowMoves(w: World, g: Grants, s: Snap, now: int)
    requires s.id < |w.rows| && w.rows[s.id].status.Pending? && s == SnapOf(w.rows, s.id)
    ensures var w' := LandRow(w, g, s, now);
            && OnlyRow(w.rows, w'.rows, s.id) && w'.routines == w.routines && w'.held == w.held && |w'.rows| == |w.rows|
            && (w'.rows[s.id].status.Pending? ==> w'.rows[s.id].other == w.rows[s.id].other)
            && (SchedulerSnap(s) && g.scheduler ==> w'.rows[s.id].status.Done? && w'.scheds == KernelApply(w.scheds, s.payload))
            && (!SchedulerSnap(s) || !g.scheduler ==> w'.scheds == w.scheds)
  {
    hide KernelApply;
  }

  /** Every scheduler row of the batch is settled, no other row has moved. */
  ghost predicate RowsLanded(w: World, w': World, todo: seq<Snap>) {
    && w'.routines == w.routines && w'.held == w.held && |w'.rows| == |w.rows|
    && (forall i :: 0 <= i < |w.rows| ==> w'.rows[i].dedup == w.rows[i].dedup)
    && (forall i :: 0 <= i < |w.rows| && (forall k :: 0 <= k < |todo| ==> todo[k].id != i) ==> w'.rows[i] == w.rows[i])
    && (forall k :: 0 <= k < |todo| && SchedulerSnap(todo[k]) ==> todo[k].id < |w'.rows| && w'.rows[todo[k].id].status.Done?)
  }

  /** Every payload of the batch is in force, no other schedule has moved. */
  ghost predicate SchedsLanded(a: map<string, Sched>, b: map<string, Sched>, todo: seq<Snap>) {
    && (forall k :: 0 <= k < |todo| && SchedulerSnap(todo[k]) ==>
          && KernelHolds(b, todo[k].payload)
          && (todo[k].payload.Upsert? ==> !b[todo[k].payload.key].disabled))
    && (forall key :: Untouched(todo, key) ==> SameAt(a, b, key))
    && (forall key :: key in a && key in b ==> b[key].suspended == a[key].suspended)
    && (forall key :: key in b && key !in a ==> !b[key].suspended)
    && (forall key :: key in b ==> key in a || exists k :: 0 <= k < |todo| && todo[k].payload.Upsert? && todo[k].payload.key == key)
  }

  /** Draining the whole batch: each scheduler row's payload is in force at the
      end, no other kernel key has moved, and no scheduler row is left waiting. */
  lemma {:induction false} LandAllEffect(w: World, g: Grants, todo: seq<Snap>, now: int)
    requires StoreInv(w) && Exact(w.rows, todo) && g.scheduler
    ensures RowsLanded(w, LandAll(w, g, todo, now), todo)
    ensures SchedsLanded(w.scheds, LandAll(w, g, todo, now).scheds, todo)
    decreases |todo|
  {
    if todo != [] {
      var s, rest := todo[0], todo[1..];
      var mid, w' := LandRow(w, g, s, now), LandAll(w, g, todo, now);
      LandRowEffect(w, g, todo, now);
      LandAllEffect(mid, g, rest, now);
      if SchedulerSnap(s) {
        ExactRows(w, todo);
        KeysDistinct(w.rows, todo);
      }
      hide StoreInv, SchedulerSnap, SchedsLanded, LandRow;
      assert forall k :: 1 <= k < |todo| ==> todo[k] == rest[k - 1];
      RowsLandedStep(w, mid, w', todo);
      SchedsLandedStep(w.scheds, mid.scheds, w'.scheds, todo);
    }
  }

  lemma ExactRows(w: World, todo: seq<Snap>)
    requires StoreInv(w) && Exact(w.rows, todo)
    ensures UniqueLive(w.rows) && RowsFit(w.rows)
  {
  }

  lemma RowsLandedStep(w: World, mid: World, w': World, todo: seq<Snap>)
    requires todo != [] && Exact(w.rows, todo) && RowsLanded(mid, w', todo[1..])
    requires mid.routines == w.routines && mid.held == w.held && |mid.rows| == |w.rows|
    requires forall i :: 0 <= i < |w.rows| && i != todo[0].id ==> mid.rows[i] == w.rows[i]
    requires forall i :: 0 <= i < |w.rows| ==> mid.rows[i].dedup == w.rows[i].dedup
    requires SchedulerSnap(todo[0]) ==> mid.rows[todo[0].id].status.Done?
    ensures RowsLanded(w, w', todo)
  {
    hide SchedulerSnap;
    assert forall k :: 1 <= k < |todo| ==> todo[k] == todo[1..][k - 1];
    assert forall k :: 0 <= k < |todo| - 1 ==> todo[1..][k] == todo[k + 1];
    assert w'.rows[todo[0].id] == mid.rows[todo[0].id];
  }

  lemma SchedsLandedStep(a: map<string, Sched>, mid: map<string, Sched>, b: map<string, Sched>, todo: seq<Snap>)
    requires todo != [] && SchedsLanded(mid, b, todo[1..])
    requires SchedulerSnap(todo[0]) ==> mid == KernelApply(a, todo[0].payload) && Untouched(todo[1..], todo[0].payload.key)
    requires !SchedulerSnap(todo[0]) ==> mid == a
    ensures SchedsLanded(a, b, todo)
  {
    var s, rest := todo[0], todo[1..];
    assert forall k :: 1 <= k < |todo| ==> todo[k] == rest[k - 1];
    assert forall k :: 0 <= k < |rest| ==> rest[k] == todo[k + 1];
    if SchedulerSnap(s) {
      assert SameAt(mid, b, s.payload.key);
    }
    forall key | Untouched(todo, key) ensures SameAt(a, b, key) {
      assert Untouched(rest, key);
      assert SameAt(mid, b, key);
      assert SchedulerSnap(s) ==> s.payload.key != key;
    }
    forall key | key in b && key !in a
      ensures exists k :: 0 <= k < |todo| && todo[k].payload.Upsert? && todo[k].payload.key == key
    {
      if key in mid {
        assert todo[0].payload.key == key;
      }
    }
  }

  ghost predicate Untouched(todo: seq<Snap>, key: string) {
    forall k :: 0 <= k < |todo| && SchedulerSnap(todo[k]) ==> todo[k].payload.key != key
  }

  predicate SameAt(a: map<string, Sched>, b: map<string, Sched>, key: string) {
    (key in a <==> key in b) && (key in a ==> a[key] == b[key])
  }

  /** Rows of different Routines never address the same schedule. */
  lemma KeysDistinct(rows: seq<Row>, todo: seq<Snap>)
    requires UniqueLive(rows) && RowsFit(rows) && Exact(rows, todo) && todo != [] && SchedulerSnap(todo[0])
    ensures Untouched(todo[1..], todo[0].payload.key)
  {
    var s := todo[0];
    assert PayloadFits(rows[s.id].dedup, rows[s.id].payload);
    forall k | 0 <= k < |todo| - 1 && SchedulerSnap(todo[1..][k]) ensures todo[1..][k].payload.key != s.payload.key {
      var t := todo[k + 1];
      assert PayloadFits(rows[t.id].dedup, rows[t.id].payload);
      assert rows[s.id].dedup != rows[t.id].dedup;
      if t.payload.key == s.payload.key {
        RoutineKeyInjective(t.dedup.id, s.dedup.id);
      }
    }
  }

  lemma MatchesItself(p: Payload, scheds: map<string, Sched>)
    requires p.Upsert? && KernelHolds(scheds, p)
    ensures SpecMatches(scheds[p.key].spec, p.cron, p.tz)
  {
  }

  ghost predicate AllDue(rows: seq<Row>, now: int) {
    forall i :: 0 <= i < |rows| && rows[i].status.Pending? ==> IsDue(rows[i], now)
  }

  /** Where a quiet full pass leaves things: every mismatch it saw is queued. */
  ghost predicate Queued(w0: World, w: World, g: Grants, now: int) {
    && StoreInv(w0) && QuietSoFar(w0, w) && LowerKeys(w0.scheds) && g.scheduler && AllDue(w0.rows, now)
    && w.held == HeldIn(w0.routines, w0.scheds)
    && (forall id :: Needs(w0.routines, w0.scheds, id) ==> HasPending(w.rows, RoutineDedup(id)))
    && (forall key :: Orphan(w0.routines, w0.scheds, key) ==> HasPending(w.rows, RoutineDedup(RecoveredId(key))))
  }

  function Drained(w: World, g: Grants, now: int): World {
    LandAll(w, g, DueFrom(w.rows, 0, now), now)
  }

  /** An active or paused Routine is in the kernel, and unless the human holds it
      suspended there it is exactly what the Routine table says. */
  predicate InForce(w: World, id: string)
    requires id in w.routines
  {
    var key := RoutineKey(id);
    && key in w.scheds
    && (!w.scheds[key].suspended ==>
          && SpecMatches(w.scheds[key].spec, w.routines[id].cron, w.routines[id].tz)
          && w.scheds[key].enabled == w.routines[id].status.Active?
          && !w.scheds[key].disabled)
  }

  lemma LocalInForce(w0: World, w: World, g: Grants, now: int, id: string)
    requires Queued(w0, w, g, now) && IsLocal(w0.routines, id)
    ensures Drained(w, g, now).routines == w0.routines && InForce(Drained(w, g, now), id)
  {
    var todo, w' := DueFrom(w.rows, 0, now), Drained(w, g, now);
    QueuedFacts(w0, w, g, now);
    hide StoreInv, DueFrom, LandAll, RowsFit, AllDue;
    if HasPending(w.rows, RoutineDedup(id)) {
      PendingInForce(w, todo, now, id);
      MatchesItself(Desired(w.routines, id), w'.scheds);
    } else {
      NotPendingUntouched(w, todo, id);
      assert SameAt(w.scheds, w'.scheds, RoutineKey(id));
    }
  }

  lemma ForeignUntouched(w0: World, w: World, g: Grants, now: int, key: string)
    requires Queued(w0, w, g, now) && !HasPrefix(key)
    ensures SameAt(w0.scheds, Drained(w, g, now).scheds, key)
  {
    hide *;
    var todo := DueFrom(w.rows, 0, now);
    QueuedFacts(w0, w, g, now);
    ForeignSnaps(w, todo, key);
    SameWhereUntouched(w.scheds, Drained(w, g, now).scheds, todo, key);
  }

  lemma QueuedFacts(w0: World, w: World, g: Grants, now: int)
    requires Queued(w0, w, g, now)
    ensures var todo, w' := DueFrom(w.rows, 0, now), Drained(w, g, now);
            && Exact(w.rows, todo) && StoreInv(w) && RowsFit(w.rows) && AllDue(w.rows, now)
            && w.scheds == w0.scheds && w.routines == w0.routines
            && RowsLanded(w, w', todo) && SchedsLanded(w.scheds, w'.scheds, todo)
  {
    LandAllEffect(w, g, DueFrom(w.rows, 0, now), now);
  }

  lemma ForeignSnaps(w: World, todo: seq<Snap>, key: string)
    requires RowsFit(w.rows) && Exact(w.rows, todo) && !HasPrefix(key)
    ensures Untouched(todo, key)
  {
    forall k | 0 <= k < |todo| && SchedulerSnap(todo[k]) ensures todo[k].payload.key != key {
      assert PayloadFits(w.rows[todo[k].id].dedup, w.rows[todo[k].id].payload);
    }
  }

  lemma SameWhereUntouched(a: map<string, Sched>, b: map<string, Sched>, todo: seq<Snap>, key: string)
    requires SchedsLanded(a, b, todo) && Untouched(todo, key)
    ensures SameAt(a, b, key)
  {
    hide SameAt, Untouched, KernelHolds;
  }

  lemma NoneWaiting(w0: World, w: World, g: Grants, now: int, i: nat)
    requires Queued(w0, w, g, now)
    requires i < |Drained(w, g, now).rows| && Drained(w, g, now).rows[i].dedup.RoutineDedup?
    ensures !Drained(w, g, now).rows[i].status.Pending?
  {
    var todo := DueFrom(w.rows, 0, now);
    QueuedFacts(w0, w, g, now);
    assert PayloadFits(w.rows[i].dedup, w.rows[i].payload);
    if w.rows[i].status.Pending? {
      assert IsDue(w.rows[i], now);
      var k :| 0 <= k < |todo| && todo[k] == SnapOf(w.rows, i);
    }
  }

  /** Every key the drain upserts belongs to a local Routine. */
  lemma UpsertedIsLocal(w: World, s: Snap)
    requires StoreInv(w) && s.id < |w.rows| && s == SnapOf(w.rows, s.id) && w.rows[s.id].status.Pending?
    requires s.payload.Upsert?
    ensures LocalKey(w.routines, s.payload.key)
  {
    var r := w.rows[s.id];
    assert PayloadFits(r.dedup, r.payload) && r.payload == Desired(w.routines, r.dedup.id);
    assert IsLocal(w.routines, r.dedup.id) && RoutineKey(r.dedup.id) == s.payload.key;
  }

  /** Under Sin90's prefix only local Routines are left. */
  lemma OnlyLocalsLeft(w0: World, w: World, g: Grants, now: int, key: string)
    requires Queued(w0, w, g, now) && HasPrefix(key)
    ensures key in Drained(w, g, now).scheds ==> LocalKey(w0.routines, key)
  {
    if key in w0.scheds {
      if !LocalKey(w0.routines, key) {
        OrphanGone(w0, w, g, now, key);
      }
    } else {
      var todo := DueFrom(w.rows, 0, now);
      QueuedFacts(w0, w, g, now);
      hide StoreInv, DueFrom, LandAll, RowsFit, AllDue, LocalKey, Drained;
      forall k | 0 <= k < |todo| && todo[k].payload.Upsert? ensures LocalKey(w.routines, todo[k].payload.key) {
        UpsertedIsLocal(w, todo[k]);
      }
    }
  }

  lemma OrphanGone(w0: World, w: World, g: Grants, now: int, key: string)
    requires Queued(w0, w, g, now)
    requires Orphan(w0.routines, w0.scheds, key)
    ensures key !in Drained(w, g, now).scheds
  {
    var todo, w', id := DueFrom(w.rows, 0, now), Drained(w, g, now), RecoveredId(key);
    QueuedFacts(w0, w, g, now);
    OrphanQueued(w0, w, g, now, key);
    PendingInForce(w, todo, now, id);
    hide StoreInv, Queued, Exact, RowsFit, DueFrom, LandAll, RowsLanded, RecoveredId, RoutineKey, Drained, Orphan;
    var k :| 0 <= k < |todo| && SchedulerSnap(todo[k]) && todo[k].payload == Desired(w.routines, id);
    assert KernelHolds(w'.scheds, todo[k].payload);
  }

  lemma OrphanQueued(w0: World, w: World, g: Grants, now: int, key: string)
    requires Queued(w0, w, g, now) && Orphan(w0.routines, w0.scheds, key)
    ensures var id := RecoveredId(key);
            RoutineKey(id) == key && !IsLocal(w0.routines, id) && HasPending(w.rows, RoutineDedup(id))
  {
    hide StoreInv, QuietSoFar;
    KeyRoundTrip(RecoveredId(key), key);
  }

  /** A Review's row is settled by a healthy turn, and the memory it names holds
      the row's own summary. */
  ghost predicate IsRemembered(w: World, s: Snap) {
    && s.id < |w.rows| && w.rows[s.id].status.Done? && Names(w.memories, w.rows[s.id].ref, s.dedup)
    && s.payload == Remember(s.dedup, w.memories[w.rows[s.id].ref.value].text)
  }

  lemma LandRowRemembers(w: World, g: Grants, todo: seq<Snap>, now: int)
    requires StoreInv(w) && ReviewInv(w) && todo != [] && Exact(w.rows, todo) && g.memory
    ensures var s, w' := todo[0], LandRow(w, g, todo[0], now);
            && ReviewInv(w') && w.memories <= w'.memories && (s.payload.Remember? ==> IsRemembered(w', s))
  {
    hide UniqueLive, LiveRowsCurrent, KernelApply;
    var s, w' := todo[0], LandRow(w, g, todo[0], now);
    assert PayloadFits(w.rows[s.id].dedup, w.rows[s.id].payload);
    OnlyRowReviews(w, w'.rows, s.id);
    if s.payload.Remember? && w'.memories != w.memories {
      LandKeepsReviews(w.(rows := w'.rows), s);
      assert w'.memories[|w.memories|] == MemoryOf(s);
    }
  }

  lemma StaysRemembered(w: World, w': World, s: Snap)
    requires IsRemembered(w, s) && w.memories <= w'.memories && s.id < |w'.rows| && w'.rows[s.id] == w.rows[s.id]
    ensures IsRemembered(w', s)
  {
  }

  /** With a healthy kernel and the capability granted, a drain remembers every
      Review that is due. */
  lemma {:induction false} LandAllRemembers(w: World, g: Grants, todo: seq<Snap>, now: int)
    requires StoreInv(w) && ReviewInv(w) && Exact(w.rows, todo) && g.memory
    ensures var w' := LandAll(w, g, todo, now);
            && w.memories <= w'.memories && |w'.rows| == |w.rows|
            && (forall i :: 0 <= i < |w.rows| && (forall k :: 0 <= k < |todo| ==> todo[k].id != i) ==> w'.rows[i] == w.rows[i])
            && (forall k :: 0 <= k < |todo| && todo[k].payload.Remember? ==> IsRemembered(w', todo[k]))
    decreases |todo|
  {
    if todo != [] {
      var rest, mid, w' := todo[1..], LandRow(w, g, todo[0], now), LandAll(w, g, todo, now);
      LandRowEffect(w, g, todo, now);
      LandRowRemembers(w, g, todo, now);
      LandAllRemembers(mid, g, rest, now);
      hide StoreInv, ReviewInv, LandRow, KernelApply;
      assert forall k :: 1 <= k < |todo| ==> todo[k] == rest[k - 1];
      assert forall k :: 0 <= k < |rest| ==> rest[k] == todo[k + 1];
      assert w'.rows[todo[0].id] == mid.rows[todo[0].id];
      if todo[0].payload.Remember? {
        StaysRemembered(mid, w', todo[0]);
      }
    }
  }

  /** One complete startup pass. Afterwards every active or paused Routine is in
      force, no orphan of Sin90's is left, every foreign key is as it was, no
      scheduler row waits, the column names exactly the Routines the human holds
      suspended, and a second full pass has nothing to do. */
  method ReconcileOnce(d: Daemon, now: int, turns: nat -> Turn, gap: nat -> seq<Event>)
    requires AllHealthy(turns, now, d.grants.maxPages) && AllEnv(gap) && Quiet(gap)
    requires StoreInv(d.Now()) && LowerKeys(d.scheds) && d.grants.scheduler && AllDue(d.rows, now)
    modifies d
    ensures d.routines == old(d.routines)
    ensures forall id :: id in d.routines && d.routines[id].status != Retired ==>
              var r, key := d.routines[id], RoutineKey(id);
              && key in d.scheds
              && (!d.scheds[key].suspended ==>
                    && d.scheds[key].spec.Cron? && UpperWords(Words(d.scheds[key].spec.expr)) == UpperWords(Words(r.cron))
                    && d.scheds[key].spec.tz.Some? && Trim(d.scheds[key].spec.tz.value) == Trim(r.tz)
                    && d.scheds[key].enabled == (r.status == Active) && !d.scheds[key].disabled)
    ensures forall id :: id in d.routines && d.routines[id].status != Retired && Differs(old(d.scheds), RoutineKey(id), d.routines[id]) ==>
              var r, key := d.routines[id], RoutineKey(id);
              d.scheds[key].spec == Cron(r.cron, Some(r.tz)) && d.scheds[key].enabled == (r.status == Active) && !d.scheds[key].disabled
    ensures forall id :: id in d.routines && d.routines[id].status != Retired && !Differs(old(d.scheds), RoutineKey(id), d.routines[id])
                         && !HasPending(old(d.rows), RoutineDedup(id)) ==>
              SameAt(old(d.scheds), d.scheds, RoutineKey(id))
    ensures forall key :: key in d.scheds && HasPrefix(key) ==>
              exists id :: id in d.routines && d.routines[id].status != Retired && RoutineKey(id) == key
    ensures forall key :: !HasPrefix(key) ==> SameAt(old(d.scheds), d.scheds, key)
    ensures forall i :: 0 <= i < |d.rows| && d.rows[i].dedup.RoutineDedup? ==> !d.rows[i].status.Pending?
    ensures d.held == HeldIn(d.routines, d.scheds)
    ensures Converged(d.Now())
  {
    ghost var w0 := d.Now();
    var failure, suspended;
    ghost var trace;
    failure, suspended, trace := ReconcileFull(d, None, gap);
    ghost var w := d.Now();
    assert Queued(w0, w, d.grants, now);
    HealthyIsPlayable(turns, now, d.grants.maxPages);
    var running;
    running, trace := d.DrainPending(now, turns);
    AllConverges(w0, w, d.grants, now);
    ConvergedData(w0, w, d.grants, now);
  }

  /** What a pass corrects: a missing schedule, and one that is not suspended and
      differs in its fields, its zone, its switch or in being disabled. */
  predicate Differs(scheds: map<string, Sched>, key: string, r: Routine) {
    key in scheds ==>
      var k := scheds[key];
      && !k.suspended
      && (k.disabled || k.enabled != (r.status == Active)
          || !k.spec.Cron? || UpperWords(Words(k.spec.expr)) != UpperWords(Words(r.cron))
          || k.spec.tz.None? || Trim(k.spec.tz.value) != Trim(r.tz))
  }

  lemma DiffersIs(routines: map<string, Routine>, scheds: map<string, Sched>, id: string)
    requires IsLocal(routines, id)
    ensures Differs(scheds, RoutineKey(id), routines[id]) <==> Needs(routines, scheds, id)
  {
    var key := RoutineKey(id);
    if key in scheds {
      SpecMatchesExact(scheds[key].spec, routines[id].cron, routines[id].tz);
    }
    hide SpecMatches, Words, UpperWords, Trim, RoutineKey;
  }

  lemma CorrectedIs(w0: World, w: World, g: Grants, now: int, id: string)
    requires Queued(w0, w, g, now) && Needs(w0.routines, w0.scheds, id)
    ensures var r, key, scheds := w0.routines[id], RoutineKey(id), Drained(w, g, now).scheds;
            key in scheds && scheds[key].spec == Cron(r.cron, Some(r.tz)) && scheds[key].enabled == (r.status == Active) && !scheds[key].disabled
  {
    var todo, w' := DueFrom(w.rows, 0, now), Drained(w, g, now);
    QueuedFacts(w0, w, g, now);
    hide StoreInv, DueFrom, LandAll, RowsFit, AllDue, Drained, Exact, SpecMatches, Words, Trim;
    PendingInForce(w, todo, now, id);
    var k :| 0 <= k < |todo| && SchedulerSnap(todo[k]) && todo[k].payload == Desired(w.routines, id);
    assert KernelHolds(w'.scheds, todo[k].payload);
  }

  lemma LeftAlone(w0: World, w: World, g: Grants, now: int, id: string)
    requires Queued(w0, w, g, now) && IsLocal(w0.routines, id)
    requires !Needs(w0.routines, w0.scheds, id) && !HasPending(w0.rows, RoutineDedup(id))
    ensures SameAt(w0.scheds, Drained(w, g, now).scheds, RoutineKey(id))
  {
    var todo := DueFrom(w.rows, 0, now);
    QueuedFacts(w0, w, g, now);
    NotCorrected(w0, id);
    StillNotPending(w0, w, id);
    NotPendingUntouched(w, todo, id);
    hide *;
    SameWhereUntouched(w.scheds, Drained(w, g, now).scheds, todo, RoutineKey(id));
  }

  lemma NotCorrected(w: World, id: string)
    requires StoreInv(w) && LowerKeys(w.scheds) && IsLocal(w.routines, id) && !Needs(w.routines, w.scheds, id)
    ensures !Corrects(w.routines, w.scheds, RoutineDedup(id))
  {
    hide Needs;
    forall key | Orphan(w.routines, w.scheds, key) ensures RecoveredId(key) != id {
      KeyRoundTrip(id, key);
    }
  }

  lemma StillNotPending(w: World, now: World, id: string)
    requires QuietSoFar(w, now) && !Corrects(w.routines, w.scheds, RoutineDedup(id)) && !HasPending(w.rows, RoutineDedup(id))
    ensures !HasPending(now.rows, RoutineDedup(id))
  {
    hide StoreInv, Corrects;
  }

  lemma InForceData(w: World, id: string)
    requires id in w.routines && InForce(w, id)
    ensures var r, key := w.routines[id], RoutineKey(id);
            && key in w.scheds
            && (!w.scheds[key].suspended ==>
                  && w.scheds[key].spec.Cron? && UpperWords(Words(w.scheds[key].spec.expr)) == UpperWords(Words(r.cron))
                  && w.scheds[key].spec.tz.Some? && Trim(w.scheds[key].spec.tz.value) == Trim(r.tz)
                  && w.scheds[key].enabled == (r.status == Active) && !w.scheds[key].disabled)
  {
    SpecMatchesExact(w.scheds[RoutineKey(id)].spec, w.routines[id].cron, w.routines[id].tz);
    hide SpecMatches, Words, UpperWords, Trim, RoutineKey;
  }

  /** The same, in the words of the two tables alone. */
  lemma ConvergedData(w0: World, w: World, g: Grants, now: int)
    requires Queued(w0, w, g, now)
    ensures var w' := Drained(w, g, now);
            && w'.routines == w0.routines
            && (forall id :: id in w'.routines && w'.routines[id].status != Retired ==>
                  var r, key := w'.routines[id], RoutineKey(id);
                  && key in w'.scheds
                  && (!w'.scheds[key].suspended ==>
                        && w'.scheds[key].spec.Cron? && UpperWords(Words(w'.scheds[key].spec.expr)) == UpperWords(Words(r.cron))
                        && w'.scheds[key].spec.tz.Some? && Trim(w'.scheds[key].spec.tz.value) == Trim(r.tz)
                        && w'.scheds[key].enabled == (r.status == Active) && !w'.scheds[key].disabled))
            && (forall id :: id in w'.routines && w'.routines[id].status != Retired && Differs(w0.scheds, RoutineKey(id), w'.routines[id]) ==>
                  var r, key := w'.routines[id], RoutineKey(id);
                  && key in w'.scheds && w'.scheds[key].spec == Cron(r.cron, Some(r.tz))
                  && w'.scheds[key].enabled == (r.status == Active) && !w'.scheds[key].disabled)
            && (forall id :: id in w'.routines && w'.routines[id].status != Retired && !Differs(w0.scheds, RoutineKey(id), w'.routines[id])
                             && !HasPending(w0.rows, RoutineDedup(id)) ==>
                  SameAt(w0.scheds, w'.scheds, RoutineKey(id)))
            && (forall key :: key in w'.scheds && HasPrefix(key) ==>
                  exists id :: id in w'.routines && w'.routines[id].status != Retired && RoutineKey(id) == key)
  {
    AllConverges(w0, w, g, now);
    var w' := Drained(w, g, now);
    hide Drained, Queued, Differs, Needs, RoutineKey, Words, UpperWords, Trim, SpecMatches, HasPrefix, SameAt, HasPending, Converged, InForce;
    forall id | id in w'.routines && w'.routines[id].status != Retired
      ensures IsLocal(w0.routines, id) && InForce(w', id) && (Differs(w0.scheds, RoutineKey(id), w'.routines[id]) <==> Needs(w0.routines, w0.scheds, id))
    {
      DiffersIs(w0.routines, w0.scheds, id);
    }
    forall id | id in w'.routines && w'.routines[id].status != Retired {
      InForceData(w', id);
    }
    forall id | id in w'.routines && w'.routines[id].status != Retired && Needs(w0.routines, w0.scheds, id) {
      CorrectedIs(w0, w, g, now, id);
    }
    forall id | id in w'.routines && w'.routines[id].status != Retired && !Needs(w0.routines, w0.scheds, id)
                && !HasPending(w0.rows, RoutineDedup(id)) {
      LeftAlone(w0, w, g, now, id);
    }
  }

  lemma AllConverges(w0: World, w: World, g: Grants, now: int)
    requires Queued(w0, w, g, now)
    ensures var w' := Drained(w, g, now);
            && w'.routines == w0.routines
            && (forall id :: id in w'.routines && IsLocal(w'.routines, id) ==> InForce(w', id))
            && (forall key :: key in w'.scheds && HasPrefix(key) ==> LocalKey(w'.routines, key))
            && (forall key :: !HasPrefix(key) ==> SameAt(w0.scheds, w'.scheds, key))
            && (forall i :: 0 <= i < |w'.rows| && w'.rows[i].dedup.RoutineDedup? ==> !w'.rows[i].status.Pending?)
            && w'.held == HeldIn(w'.routines, w'.scheds)
            && Converged(w')
  {
    hide *;
    var w' := Drained(w, g, now);
    DrainedRoutines(w0, w, g, now);
    forall id | id in w'.routines && IsLocal(w'.routines, id) ensures InForce(w', id) {
      LocalInForce(w0, w, g, now, id);
    }
    forall key | key in w'.scheds && HasPrefix(key) ensures LocalKey(w'.routines, key) {
      OnlyLocalsLeft(w0, w, g, now, key);
    }
    forall key | !HasPrefix(key) ensures SameAt(w0.scheds, w'.scheds, key) {
      ForeignUntouched(w0, w, g, now, key);
    }
    forall i | 0 <= i < |w'.rows| && w'.rows[i].dedup.RoutineDedup? ensures !w'.rows[i].status.Pending? {
      NoneWaiting(w0, w, g, now, i);
    }
    HeldStays(w0, w, g, now);
    InForceIsConverged(w');
  }

  /** Draining leaves every suspension as it was, and so the column stays right. */
  lemma HeldStays(w0: World, w: World, g: Grants, now: int)
    requires Queued(w0, w, g, now)
    requires var w' := Drained(w, g, now); forall id :: id in w'.routines && IsLocal(w'.routines, id) ==> InForce(w', id)
    ensures var w' := Drained(w, g, now); w'.held == HeldIn(w'.routines, w'.scheds)
  {
    var w' := Drained(w, g, now);
    QueuedFacts(w0, w, g, now);
    hide StoreInv, Exact, DueFrom, LandAll, AllDue, Drained, QuietSoFar, RoutineKey;
    forall id | id in w'.routines && IsLocal(w'.routines, id) ensures id in w'.held <==> w'.scheds[RoutineKey(id)].suspended {
      assert InForce(w', id);
    }
    hide HeldIn;
    assert HeldIn(w'.routines, w'.scheds) == w'.held by { HeldIs(w', w0.scheds); }
  }

  lemma HeldIs(w: World, before: map<string, Sched>)
    requires w.held == HeldIn(w.routines, before)
    requires forall id :: id in w.routines && IsLocal(w.routines, id) ==>
               RoutineKey(id) in w.scheds && (id in w.held <==> w.scheds[RoutineKey(id)].suspended)
    ensures HeldIn(w.routines, w.scheds) == w.held
  {
    hide RoutineKey;
  }

  lemma DrainedRoutines(w0: World, w: World, g: Grants, now: int)
    requires Queued(w0, w, g, now)
    ensures Drained(w, g, now).routines == w0.routines
  {
    QueuedFacts(w0, w, g, now);
  }

  lemma InForceIsConverged(w: World)
    requires forall id :: id in w.routines && IsLocal(w.routines, id) ==> InForce(w, id)
    requires forall key :: key in w.scheds && HasPrefix(key) ==> LocalKey(w.routines, key)
    ensures Converged(w)
  {
    hide SpecMatches, LocalKey, HasPrefix, RoutineKey;
  }

  lemma ConvergedQueuesNothing(w: World, rows: seq<Row>)
    requires Converged(w) && QueuedFrom(w, rows)
    ensures rows == w.rows
  {
    assert forall d :: !Corrects(w.routines, w.scheds, d);
    assert |w.rows| < |rows| ==> Corrects(w.routines, w.scheds, rows[|w.rows|].dedup);
  }

  /** The fixed point: from a converged state a quiet full pass queues nothing,
      and all it writes is the column of suspended Routines. */
  method SecondPassIsIdle(d: Daemon, gap: nat -> seq<Event>)
    requires AllEnv(gap) && Quiet(gap)
    requires StoreInv(d.Now()) && LowerKeys(d.scheds) && Converged(d.Now())
    modifies d
    ensures d.Now() == old(d.Now()).(held := if d.grants.scheduler then HeldIn(d.routines, d.scheds) else old(d.held))
  {
    ghost var w := d.Now();
    var failure, suspended;
    ghost var trace;
    failure, suspended, trace := ReconcileFull(d, None, gap);
    if d.grants.scheduler {
      ConvergedQueuesNothing(w, d.rows);
    }
  }

  lemma PendingInForce(w: World, todo: seq<Snap>, now: int, id: string)
    requires StoreInv(w) && Exact(w.rows, todo)
    requires HasPending(w.rows, RoutineDedup(id)) && AllDue(w.rows, now) && todo == DueFrom(w.rows, 0, now)
    ensures exists k :: 0 <= k < |todo| && SchedulerSnap(todo[k]) && todo[k].payload == Desired(w.routines, id)
  {
    var i :| 0 <= i < |w.rows| && w.rows[i].dedup == RoutineDedup(id) && w.rows[i].status.Pending?;
    assert IsDue(w.rows[i], now);
    var k :| 0 <= k < |todo| && todo[k] == SnapOf(w.rows, i);
    assert todo[k].payload == Desired(w.routines, id);
  }

  lemma NotPendingUntouched(w: World, todo: seq<Snap>, id: string)
    requires StoreInv(w) && Exact(w.rows, todo) && Canonical(id)
    requires !HasPending(w.rows, RoutineDedup(id))
    ensures Untouched(todo, RoutineKey(id))
  {
    forall k | 0 <= k < |todo| && SchedulerSnap(todo[k]) ensures todo[k].payload.key != RoutineKey(id) {
      var r := w.rows[todo[k].id];
      assert PayloadFits(r.dedup, r.payload);
      if todo[k].payload.key == RoutineKey(id) {
        RoutineKeyInjective(r.dedup.id, id);
      }
    }
  }
}
