/** What each store write leaves behind, read off the tables. */
module StoreLaws {
  import opened Prelude
  import opened KernelKey
  import opened Outbox

  /** The key has one live row, new or overwritten: pending, due at once, with a
      clean count and a version the row has not had. Every other row is as it was. */
  ghost predicate Queues(rows: seq<Row>, rows': seq<Row>, d: DedupKey, p: Payload) {
    && |rows| <= |rows'| <= |rows| + 1
    && (exists k :: 0 <= k < |rows'| && IsQueued(rows'[k], d, p)
                    && (k < |rows| ==> rows[k].dedup == d && !rows[k].status.Done? && rows'[k].version == rows[k].version + 1)
                    && (k == |rows| ==> rows'[k].version == 1)
                    && (forall i :: 0 <= i < |rows'| && i != k ==> i < |rows| && rows'[i] == rows[i])
                    && (forall i :: 0 <= i < |rows'| && i != k && rows'[i].dedup == d ==> rows'[i].status.Done?))
  }

  predicate IsQueued(r: Row, d: DedupKey, p: Payload) {
    && r.dedup == d && r.payload == p && r.status.Pending? && r.nextAt.None? && r.attempts == 0 && r.other == 0
  }

  /** Only the outbox differs, by this one write. */
  ghost predicate OnlyQueues(w: World, w': World, d: DedupKey, p: Payload) {
    w' == w.(rows := w'.rows) && Queues(w.rows, w'.rows, d, p)
  }

  lemma WriteQueues(rows: seq<Row>, d: DedupKey, p: Payload)
    requires UniqueLive(rows)
    ensures Queues(rows, UpsertOutbox(rows, d, p), d, p)
  {
    var rows' := UpsertOutbox(rows, d, p);
    var k := if FindLive(rows, d).Some? then FindLive(rows, d).value else |rows|;
    assert IsQueued(rows'[k], d, p);
    assert forall i :: 0 <= i < |rows'| && i != k ==> i < |rows| && rows'[i] == rows[i];
    UpsertOutboxEffect(rows, d, p);
    hide UpsertOutbox;
    assert forall i :: 0 <= i < |rows'| && i != k && rows'[i].dedup == d ==> rows'[i].status.Done?;
  }

  /** A Routine is stored as given and its desired state is queued; nothing else changes. */
  ghost predicate Stores(w: World, w': World, id: string, r: Routine) {
    && w' == w.(routines := w.routines[id := r], rows := w'.rows)
    && Queues(w.rows, w'.rows, RoutineDedup(id),
              if r.status.Retired? then Delete(RoutineKey(id)) else Upsert(RoutineKey(id), r.cron, r.tz, r.status.Active?))
  }

  lemma WriteStores(w: World, id: string, r: Routine)
    requires UniqueLive(w.rows)
    ensures Stores(w, WriteRoutine(w, id, r), id, r)
  {
    WriteQueues(w.rows, RoutineDedup(id), Desired(w.routines[id := r], id));
    hide Queues;
  }

  /** A new Routine starts out active; an id in use is left alone. */
  lemma CreateStores(w: World, id: string, cron: string, tz: string)
    requires UniqueLive(w.rows)
    ensures var w' := CreateRoutine(w, id, cron, tz);
            if id in w.routines then w' == w else Stores(w, w', id, Routine(cron, tz, Active))
  {
    WriteStores(w, id, Routine(cron, tz, Active));
  }

  /** An edit stores the new cron and zone and queues them; an edit of nothing, or
      of a retired or unknown Routine, writes nothing. */
  lemma UpdateStores(w: World, id: string, cron: string, tz: string)
    requires UniqueLive(w.rows)
    ensures var w' := UpdateRoutine(w, id, cron, tz);
            if id !in w.routines || w.routines[id].status == Retired
               || (w.routines[id].cron == cron && w.routines[id].tz == tz) then w' == w
            else Stores(w, w', id, Routine(cron, tz, w.routines[id].status))
  {
    if id in w.routines {
      WriteStores(w, id, w.routines[id].(cron := cron, tz := tz));
    }
  }

  /** Pausing, resuming and retiring are the only moves, and retirement is final. */
  lemma MoveStores(w: World, id: string, to: RoutineStatus)
    requires UniqueLive(w.rows)
    ensures var w' := TransitionRoutine(w, id, to);
            if id in w.routines && (w.routines[id].status, to) in [(Active, Paused), (Paused, Active), (Active, Retired), (Paused, Retired)]
            then Stores(w, w', id, Routine(w.routines[id].cron, w.routines[id].tz, to))
            else w' == w
  {
    if id in w.routines {
      WriteStores(w, id, w.routines[id].(status := to));
    }
  }

  /** A Review is finalized once, and then its summary is queued, unless its body
      is blank. */
  lemma FinalizeStores(w: World, review: string, blank: bool, summary: string)
    requires UniqueLive(w.rows)
    ensures var w' := FinalizeReview(w, review, blank, summary);
            if review in w.finalized then w' == w
            else
              && w' == w.(finalized := w.finalized + {review}, rows := w'.rows)
              && if blank then w'.rows == w.rows
                 else Queues(w.rows, w'.rows, ReviewDedup(review), Remember(ReviewDedup(review), summary))
  {
    WriteQueues(w.rows, ReviewDedup(review), Remember(ReviewDedup(review), summary));
  }

  lemma OtherStores(w: World, name: string, recognized: bool)
    requires UniqueLive(w.rows)
    ensures OnlyQueues(w, EnqueueOther(w, name, recognized), OtherDedup(name), if recognized then Malformed else Unrecognized)
  {
    WriteQueues(w.rows, OtherDedup(name), if recognized then Malformed else Unrecognized);
  }

  predicate Waits(rows: seq<Row>, d: DedupKey) {
    exists i :: 0 <= i < |rows| && rows[i].dedup == d && rows[i].status.Pending?
  }

  /** A correction says what the Routine says now, and never touches a row that
      already waits. */
  lemma CorrectionsQueue(w: World, id: string, key: string)
    requires UniqueLive(w.rows)
    ensures var w' := CorrectUpsert(w, id);
            if id in w.routines && w.routines[id].status != Retired && !Waits(w.rows, RoutineDedup(id)) then
              OnlyQueues(w, w', RoutineDedup(id),
                         Upsert(RoutineKey(id), w.routines[id].cron, w.routines[id].tz, w.routines[id].status == Active))
            else w' == w
    ensures var w' := CorrectDelete(w, id, key);
            if (id !in w.routines || w.routines[id].status == Retired) && !Waits(w.rows, RoutineDedup(id)) then
              OnlyQueues(w, w', RoutineDedup(id), Delete(key))
            else w' == w
  {
    WriteQueues(w.rows, RoutineDedup(id), Desired(w.routines, id));
    WriteQueues(w.rows, RoutineDedup(id), Delete(key));
    hide Queues, UpsertOutbox;
    assert AnyPending(w.rows, RoutineDedup(id)) <==> Waits(w.rows, RoutineDedup(id));
  }

  /** The guarded write-backs, each in full: they change a pending row of that
      version and nothing else. */
  lemma WriteBacks(rows: seq<Row>, i: nat, version: nat, ref: Option<nat>, nextAt: int, bump: bool, kind: FailureKind)
    ensures var here := i < |rows| && rows[i].status == Pending && rows[i].version == version;
            var done, retry, failed := MarkDone(rows, i, version, ref), MarkRetry(rows, i, version, nextAt, bump), MarkFailed(rows, i, version, kind);
            && (!here ==> done == retry == failed == rows)
            && (here ==>
                  && |done| == |retry| == |failed| == |rows|
                  && (forall j :: 0 <= j < |rows| && j != i ==> done[j] == retry[j] == failed[j] == rows[j])
                  && var r := rows[i];
                     && done[i] == Row(r.dedup, r.payload, Done, version, r.attempts, r.other, r.nextAt, ref)
                     && retry[i] == Row(r.dedup, r.payload, Pending, version, r.attempts + 1,
                                     if bump then r.other + 1 else r.other, Some(nextAt), r.ref)
                     && failed[i] == Row(r.dedup, r.payload, Failed(kind), version, r.attempts + 1, r.other, None, r.ref))
  {
  }
}
