/** When the pump drains and when it runs a full pass. */
module PumpTick {
  import opened Prelude
  import opened KernelKey
  import opened Outbox
  import opened Protocol
  import opened ProtocolSafety
  import opened Reconciler
  import opened FullReconcile
  import opened Convergence

  datatype Control = GoOn | Stop

  datatype FullError = PassRevoked | PassFailed

  /** What one tick comes to for the pump's own books: how the drain ended, the clock
      after it, how a full pass ends, and the clock after that. */
  datatype Tick = Tick(drain: Result<Control, FullError>, now: int, full: Result<(), FullError>, later: int)

  datatype Attempt = Attempt(start: int, end: int, ok: bool)

  datatype PumpView = PumpView(fullOk: bool, fullAttempts: nat, nextFull: int, lastSuccess: int)

  function Since(now: int, earlier: int): int {
    if now > earlier then now - earlier else 0
  }

  predicate Due(v: PumpView, now: int, interval: nat) {
    if v.fullOk then Since(now, v.lastSuccess) >= interval else now >= v.nextFull
  }

  /** Whether a tick gets as far as a full pass. */
  predicate Attempts(v: PumpView, t: Tick, interval: nat) {
    t.drain != Ok(Stop) && Due(v, t.now, interval)
  }

  /** What the end of a full pass does to the books. */
  function AfterPass(v: PumpView, full: Result<(), FullError>, later: int): (PumpView, Control) {
    match full
    case Ok(_) => (PumpView(true, 0, v.nextFull, later), GoOn)
    case Err(PassRevoked) => (v, Stop)
    case Err(PassFailed) => (v.(fullAttempts := v.fullAttempts + 1, nextFull := later + BackoffAfter(v.fullAttempts + 1)), GoOn)
  }

  function Ticked(v: PumpView, t: Tick, interval: nat): (PumpView, Control) {
    if t.drain == Ok(Stop) then (v, Stop)
    else if !Due(v, t.now, interval) then (v, GoOn)
    else AfterPass(v, t.full, t.later)
  }

  function AttemptOf(t: Tick): Attempt {
    Attempt(t.now, t.later, t.full.Ok?)
  }

  /** What the world does during one tick: writes before the due rows are read,
      whether they can be read, every row's turn, the clock, whether the Routine
      table can be read for a full pass, how `list` ends, what others write during
      that pass, and the clock after it. */
  datatype Play = Play(before: seq<Event>, drainFails: bool, drainNow: int, turns: nat -> Turn, now: int,
                       passFails: bool, listFails: Option<ClientError>, gap: nat -> seq<Event>, later: int)

  ghost predicate PlayOk(p: Play) {
    Env(p.before) && AllPlayable(p.turns) && AllEnv(p.gap)
  }

  /** How a full pass ends; without a scheduler there is nothing for it to do. */
  function PassEnds(p: Play, scheduler: bool): Result<(), FullError> {
    if !scheduler then Ok(())
    else if p.passFails then Err(PassFailed)
    else if p.listFails.None? then Ok(())
    else if p.listFails.value.Revoked? then Err(PassRevoked)
    else Err(PassFailed)
  }

  /** One tick as it went: where the daemon stood, the run it performed, where it
      then stood, the store and kernel between the drain and the pass, and its books. */
  datatype TickRun = TickRun(from: State, trace: seq<Event>, to: State, mid: World, tick: Tick)

  /** The drain comes first: but for other tasks' writes, the tick's run begins by
      reading the due rows. */
  ghost predicate DrainsFirst(p: Play, trace: seq<Event>) {
    !p.drainFails ==> |p.before| < |trace| && trace[..|p.before|] == p.before && trace[|p.before|] == ReadBatch(p.drainNow)
  }

  /** What the full pass left behind, starting from `w`: in a quiet one, every
      mismatch is queued, nothing else has moved, and the column is right. */
  ghost predicate PassDone(w: World, now: World) {
    && QuietSoFar(w, now) && now.held == HeldIn(w.routines, w.scheds)
    && (forall id :: Needs(w.routines, w.scheds, id) ==> HasPending(now.rows, RoutineDedup(id)))
    && (forall key :: Orphan(w.routines, w.scheds, key) ==> HasPending(now.rows, RoutineDedup(RecoveredId(key))))
  }

  /** A tick is a run of the protocol that drains first and, if its books make a
      pass due, then runs the pass on what the drain left. */
  ghost predicate TickIs(p: Play, v: PumpView, r: TickRun, interval: nat) {
    && Leads(r.from, r.trace, r.to) && DrainsFirst(p, r.trace)
    && r.from.pump.Idle? && r.to.grants == r.from.grants
    && r.to.pump == (if r.tick.drain == Ok(Stop) then Stopped else Idle)
    && (p.drainFails <==> r.tick.drain.Err?)
    && r.tick.now == p.now && r.tick.later == p.later && r.tick.full == PassEnds(p, r.from.grants.scheduler)
    && (p.before == [] && !p.drainFails && AllHealthy(p.turns, p.drainNow, r.from.grants.maxPages) ==>
          r.tick.drain == Ok(GoOn) && r.mid == Drained(r.from.w, r.from.grants, p.drainNow))
    && (!Attempts(v, r.tick, interval) ==> r.to.w == r.mid)
    && (Attempts(v, r.tick, interval) && Quiet(p.gap) ==>
          if r.from.grants.scheduler && r.tick.full.Ok? then PassDone(r.mid, r.to.w) else r.to.w == r.mid)
  }

  /** Where a pump may take up its work. */
  ghost predicate Ready(d: Daemon)
    reads d
  {
    Inv(d.At(Idle)) && LowerKeys(d.scheds)
  }

  lemma StaysReady(st: State, trace: seq<Event>, to: State)
    requires Inv(st) && LowerKeys(st.w.scheds) && Leads(st, trace, to)
    ensures Inv(to) && LowerKeys(to.w.scheds)
  {
    RunKeepsInv(st, trace);
    RunKeepsLowerKeys(st, trace);
  }

  lemma ReadyMeans(st: State)
    requires Inv(st)
    ensures StoreInv(st.w)
  {
  }

  lemma StartsAt(p: Play, before: seq<Event>, steps: seq<Event>)
    requires before == [] + p.before && steps != [] && steps[0] == ReadBatch(p.drainNow)
    ensures DrainsFirst(p, before + steps)
  {
  }

  /** The drain of a tick, after whatever other tasks write first. */
  method Drain(d: Daemon, p: Play) returns (drain: Result<Control, FullError>, ghost trace: seq<Event>)
    requires PlayOk(p) && Ready(d)
    modifies d
    ensures Leads(old(d.At(Idle)), trace, d.At(if drain == Ok(Stop) then Stopped else Idle)) && DrainsFirst(p, trace)
    ensures drain != Ok(Stop) ==> Ready(d)
    ensures p.drainFails <==> drain.Err?
    ensures p.before == [] && !p.drainFails && AllHealthy(p.turns, p.drainNow, d.grants.maxPages) ==>
              drain == Ok(GoOn) && d.Now() == Drained(old(d.Now()), d.grants, p.drainNow)
  {
    hide Leads, Inv, LowerKeys, Playable, Healthy, AllHealthy, LandAll, DueFrom;
    ghost var st := d.At(Idle);
    LeadsNowhere(st);
    NothingPerformed(d.Now());
    LeadsEnv(st, [], st, p.before);
    d.Interfere(p.before);
    trace := [] + p.before;
    if p.drainFails {
      StaysReady(st, trace, d.At(Idle));
      return Err(PassFailed), trace;
    }
    ghost var mid := d.At(Idle);
    var running;
    ghost var steps;
    running, steps := d.DrainPending(p.drainNow, p.turns);
    LeadsOn(st, trace, mid, steps, d.At(if running then Idle else Stopped));
    StartsAt(p, trace, steps);
    trace := trace + steps;
    if running {
      StaysReady(st, trace, d.At(Idle));
    }
    return Ok(if running then GoOn else Stop), trace;
  }

  /** A full pass, if the Routine table can be read for it. */
  method FullPass(d: Daemon, p: Play) returns (full: Result<(), FullError>, ghost trace: seq<Event>)
    requires PlayOk(p) && Ready(d)
    modifies d
    ensures Leads(old(d.At(Idle)), trace, d.At(Idle)) && Ready(d)
    ensures full == PassEnds(p, d.grants.scheduler)
    ensures Quiet(p.gap) ==>
              if d.grants.scheduler && full.Ok? then PassDone(old(d.Now()), d.Now()) else d.Now() == old(d.Now())
  {
    hide Leads, Inv, LowerKeys, Playable, QuietSoFar, Needs, Orphan, HasPending, HeldIn;
    ghost var st := d.At(Idle);
    LeadsNowhere(st);
    ReadyMeans(st);
    if d.grants.scheduler && p.passFails {
      return Err(PassFailed), [];
    }
    var failure, suspended;
    failure, suspended, trace := ReconcileFull(d, p.listFails, p.gap);
    StaysReady(st, trace, d.At(Idle));
    if failure.None? {
      return Ok(()), trace;
    }
    return Err(if failure.value.Revoked? then PassRevoked else PassFailed), trace;
  }

  /** What a tick's drain comes to. */
  ghost predicate DrainIs(p: Play, st: State, trace: seq<Event>, to: State, drain: Result<Control, FullError>) {
    && Leads(st, trace, to) && DrainsFirst(p, trace)
    && st.pump.Idle? && to.grants == st.grants && to.pump == (if drain == Ok(Stop) then Stopped else Idle)
    && (p.drainFails <==> drain.Err?)
    && (p.before == [] && !p.drainFails && AllHealthy(p.turns, p.drainNow, st.grants.maxPages) ==>
          drain == Ok(GoOn) && to.w == Drained(st.w, st.grants, p.drainNow))
  }

  /** A tick without a pass. */
  lemma OnlyDrained(p: Play, v: PumpView, r: TickRun, interval: nat)
    requires DrainIs(p, r.from, r.trace, r.to, r.tick.drain) && r.mid == r.to.w && !Attempts(v, r.tick, interval)
    requires r.tick.now == p.now && r.tick.later == p.later && r.tick.full == PassEnds(p, r.from.grants.scheduler)
    ensures TickIs(p, v, r, interval)
  {
    hide Leads, DrainsFirst, PassDone, Drained, AllHealthy, Quiet, PassEnds, Attempts;
  }

  /** A tick with one. */
  lemma DrainedAndPassed(p: Play, v: PumpView, r: TickRun, mid: State, first: seq<Event>, more: seq<Event>, interval: nat)
    requires DrainIs(p, r.from, first, mid, r.tick.drain) && mid.pump.Idle? && Leads(mid, more, r.to) && r.trace == first + more
    requires r.to.pump.Idle? && r.to.grants == mid.grants && r.mid == mid.w && Attempts(v, r.tick, interval)
    requires r.tick.now == p.now && r.tick.later == p.later && r.tick.full == PassEnds(p, r.from.grants.scheduler)
    requires Quiet(p.gap) ==>
               if r.from.grants.scheduler && r.tick.full.Ok? then PassDone(r.mid, r.to.w) else r.to.w == r.mid
    ensures TickIs(p, v, r, interval)
  {
    LeadsOn(r.from, first, mid, more, r.to);
    StillFirst(p, first, more);
    hide Leads, DrainsFirst, PassDone, Drained, AllHealthy, Quiet, PassEnds, Attempts;
  }

  class Pump {
    var fullOk: bool
    var fullAttempts: nat
    var nextFull: int
    var lastSuccess: int
    var attempts: seq<Attempt>

    constructor (now: int)
      ensures Now() == PumpView(false, 0, now, now) && attempts == []
    {
      fullOk := false;
      fullAttempts := 0;
      nextFull := now;
      lastSuccess := now;
      attempts := [];
    }

    function Now(): PumpView
      reads this
    {
      PumpView(fullOk, fullAttempts, nextFull, lastSuccess)
    }

    /** Whether a full pass is due. */
    method PassIsDue(now: int, interval: nat) returns (due: bool)
      ensures due == Due(Now(), now, interval)
    {
      if fullOk {
        return Since(now, lastSuccess) >= interval;
      }
      return now >= nextFull;
    }

    /** Enters a full pass in the books. */
    method Note(full: Result<(), FullError>, now: int, later: int) returns (c: Control)
      modifies this
      ensures (Now(), c) == AfterPass(old(Now()), full, later)
      ensures attempts == old(attempts) + [Attempt(now, later, full.Ok?)]
    {
      attempts := attempts + [Attempt(now, later, full.Ok?)];
      match full {
        case Ok(_) =>
          fullOk := true;
          fullAttempts := 0;
          lastSuccess := later;
        case Err(PassRevoked) => return Stop;
        case Err(PassFailed) =>
          fullAttempts := fullAttempts + 1;
          nextFull := later + BackoffAfter(fullAttempts);
      }
      return GoOn;
    }

    /** Draining comes first and is never gated on the full pass. */
    method DoTick(d: Daemon, p: Play, interval: nat) returns (c: Control, ghost r: TickRun)
      requires PlayOk(p) && Ready(d)
      modifies this, d
      ensures r.from == old(d.At(Idle)) && TickIs(p, old(Now()), r, interval)
      ensures r.to == d.At(if r.tick.drain == Ok(Stop) then Stopped else Idle)
      ensures c == GoOn ==> Ready(d)
      ensures (Now(), c) == Ticked(old(Now()), r.tick, interval)
      ensures attempts == old(attempts) + (if Attempts(old(Now()), r.tick, interval) then [AttemptOf(r.tick)] else [])
    {
      hide Leads, Ready, PlayOk, DrainsFirst, PassDone, Drained, AllHealthy, Quiet, PassEnds, TickIs, AfterPass, Due;
      ghost var st, v := d.At(Idle), Now();
      var drain;
      ghost var trace;
      drain, trace := Drain(d, p);
      ghost var t := Tick(drain, p.now, PassEnds(p, d.grants.scheduler), p.later);
      r := TickRun(st, trace, d.At(if drain == Ok(Stop) then Stopped else Idle), d.Now(), t);
      if drain == Ok(Stop) {
        OnlyDrained(p, v, r, interval);
        return Stop, r;
      }
      var due := PassIsDue(p.now, interval);
      if !due {
        OnlyDrained(p, v, r, interval);
        return GoOn, r;
      }
      ghost var mid := d.At(Idle);
      var full;
      ghost var more;
      full, more := FullPass(d, p);
      c := Note(full, p.now, p.later);
      r := TickRun(st, trace + more, d.At(Idle), mid.w, t);
      DrainedAndPassed(p, v, r, mid, trace, more, interval);
    }

    /** The pump loop, until the ticks run out or the kernel revokes the generation. */
    method Loop(d: Daemon, plays: seq<Play>, interval: nat) returns (ghost runs: seq<TickRun>)
      requires Ready(d) && forall i :: 0 <= i < |plays| ==> PlayOk(plays[i])
      modifies this, d
      ensures LinkedRuns(old(d.At(Idle)), old(Now()), plays, runs, interval)
      ensures attempts == old(attempts) + Made(old(Now()), Ticks(runs), interval)
      ensures Now() == EndsIn(old(Now()), Ticks(runs), interval).0
      ensures |runs| < |plays| ==> EndsIn(old(Now()), Ticks(runs), interval).1 == Stop
      ensures runs != [] ==> runs[|runs| - 1].to.w == d.Now()
    {
      hide Ready, PlayOk, TickIs, Made, Own, EndsIn, Ticks, Ticked, LinkedRuns, Attempts;
      runs := [];
      ghost var st, v := d.At(Idle), Now();
      NoRuns(st, v, plays, interval);
      for i := 0 to |plays|
        invariant |runs| == i && LinkedRuns(st, v, plays, runs, interval) && Ready(d)
        invariant EndsIn(v, Ticks(runs), interval) == (Now(), GoOn)
        invariant attempts == old(attempts) + Made(v, Ticks(runs), interval)
        invariant d.At(Idle) == (if runs == [] then st else runs[i - 1].to)
      {
        ghost var before, made := Now(), attempts;
        var c;
        ghost var r;
        c, r := DoTick(d, plays[i], interval);
        OwnIs(before, r.tick, interval);
        GoingOn(before, r.tick, interval);
        OneMore(v, Ticks(runs), r.tick, interval);
        TicksSnoc(runs, r);
        LinkSnoc(st, v, plays, runs, interval, r);
        Regroup(old(attempts), Made(v, Ticks(runs), interval), Own(before, r.tick, interval));
        runs := runs + [r];
        if c == Stop {
          return runs;
        }
      }
    }
  }

  lemma OwnIs(v: PumpView, t: Tick, interval: nat)
    ensures Own(v, t, interval) == if Attempts(v, t, interval) then [AttemptOf(t)] else []
  {
  }

  lemma GoingOn(v: PumpView, t: Tick, interval: nat)
    ensures Ticked(v, t, interval).1 == GoOn ==> t.drain != Ok(Stop)
  {
  }

  lemma Regroup(a: seq<Attempt>, b: seq<Attempt>, c: seq<Attempt>)
    ensures a + b + c == a + (b + c)
  {
  }

  /** A run that starts with the drain still does when the pass follows. */
  lemma StillFirst(p: Play, trace: seq<Event>, more: seq<Event>)
    requires DrainsFirst(p, trace)
    ensures DrainsFirst(p, trace + more)
  {
    if !p.drainFails {
      assert (trace + more)[..|p.before|] == trace[..|p.before|];
    }
  }

  /** The full passes a run of ticks makes. */
  function Made(v: PumpView, ticks: seq<Tick>, interval: nat): seq<Attempt>
    decreases |ticks|
  {
    if ticks == [] then []
    else
      var (next, c) := Ticked(v, ticks[0], interval);
      Own(v, ticks[0], interval) + (if c == Stop then [] else Made(next, ticks[1..], interval))
  }

  function Own(v: PumpView, t: Tick, interval: nat): seq<Attempt> {
    if Attempts(v, t, interval) then [AttemptOf(t)] else []
  }

  /** What the books say after a run of ticks, and whether the pump goes on. */
  function EndsIn(v: PumpView, ticks: seq<Tick>, interval: nat): (PumpView, Control)
    decreases |ticks|
  {
    if ticks == [] then (v, GoOn)
    else
      var (next, c) := Ticked(v, ticks[0], interval);
      if c == Stop then (next, Stop) else EndsIn(next, ticks[1..], interval)
  }

  lemma OneTick(v: PumpView, ticks: seq<Tick>, i: nat, interval: nat)
    requires i < |ticks|
    ensures var (next, c) := Ticked(v, ticks[i], interval);
            Made(v, ticks[i..], interval) ==
              if c == Stop then Own(v, ticks[i], interval) else Own(v, ticks[i], interval) + Made(next, ticks[i + 1..], interval)
  {
    hide Ticked, Own;
    assert ticks[i..][0] == ticks[i] && ticks[i..][1..] == ticks[i + 1..];
    assert Own(v, ticks[i], interval) + [] == Own(v, ticks[i], interval);
  }

  /** One more tick after a run that has not stopped. */
  lemma {:induction false} OneMore(v: PumpView, ticks: seq<Tick>, t: Tick, interval: nat)
    requires EndsIn(v, ticks, interval).1 == GoOn
    ensures var w := EndsIn(v, ticks, interval).0;
            && Made(v, ticks + [t], interval) == Made(v, ticks, interval) + Own(w, t, interval)
            && EndsIn(v, ticks + [t], interval) == Ticked(w, t, interval)
    decreases |ticks|
  {
    hide Ticked, Own;
    if ticks == [] {
      assert ticks + [t] == [t] && [t][1..] == [];
      assert Made(v, [t], interval) == Own(v, t, interval) + [] == Own(v, t, interval);
    } else {
      var all, next := ticks + [t], Ticked(v, ticks[0], interval).0;
      assert all[0] == ticks[0] && all[1..] == ticks[1..] + [t];
      OneMore(next, ticks[1..], t, interval);
      assert Own(v, ticks[0], interval) + (Made(next, ticks[1..], interval) + Own(EndsIn(v, ticks, interval).0, t, interval))
          == (Own(v, ticks[0], interval) + Made(next, ticks[1..], interval)) + Own(EndsIn(v, ticks, interval).0, t, interval);
    }
  }

  // --------------------------------------------------- the loop, as it went

  ghost function Ticks(runs: seq<TickRun>): (ts: seq<Tick>)
    ensures |ts| == |runs|
  {
    seq(|runs|, i requires 0 <= i < |runs| => runs[i].tick)
  }

  /** Each tick goes on from where the one before left the daemon and the books. */
  ghost predicate LinkAt(st: State, v: PumpView, plays: seq<Play>, runs: seq<TickRun>, interval: nat, i: nat)
    requires i < |runs| <= |plays|
  {
    && runs[i].from == (if i == 0 then st else runs[i - 1].to)
    && EndsIn(v, Ticks(runs)[..i], interval).1 == GoOn
    && TickIs(plays[i], EndsIn(v, Ticks(runs)[..i], interval).0, runs[i], interval)
  }

  ghost predicate LinkedRuns(st: State, v: PumpView, plays: seq<Play>, runs: seq<TickRun>, interval: nat) {
    |runs| <= |plays| && forall i :: 0 <= i < |runs| ==> LinkAt(st, v, plays, runs, interval, i)
  }

  lemma NoRuns(st: State, v: PumpView, plays: seq<Play>, interval: nat)
    ensures LinkedRuns(st, v, plays, [], interval) && Ticks([]) == []
    ensures Made(v, [], interval) == [] && EndsIn(v, [], interval) == (v, GoOn)
  {
  }

  lemma TicksSnoc(runs: seq<TickRun>, r: TickRun)
    ensures Ticks(runs + [r]) == Ticks(runs) + [r.tick]
  {
  }

  lemma LinkSnoc(st: State, v: PumpView, plays: seq<Play>, runs: seq<TickRun>, interval: nat, r: TickRun)
    requires LinkedRuns(st, v, plays, runs, interval) && |runs| < |plays|
    requires r.from == (if runs == [] then st else runs[|runs| - 1].to)
    requires EndsIn(v, Ticks(runs), interval).1 == GoOn
    requires TickIs(plays[|runs|], EndsIn(v, Ticks(runs), interval).0, r, interval)
    ensures LinkedRuns(st, v, plays, runs + [r], interval)
  {
    hide TickIs, EndsIn, Ticks;
    var all := runs + [r];
    TicksSnoc(runs, r);
    forall i | 0 <= i < |all| ensures LinkAt(st, v, plays, all, interval, i) {
      assert Ticks(all)[..i] == Ticks(runs)[..i];
      if i < |runs| {
        assert LinkAt(st, v, plays, runs, interval, i);
      } else {
        assert Ticks(runs)[..i] == Ticks(runs);
      }
    }
  }

  function Joined(runs: seq<seq<Event>>): seq<Event> {
    if runs == [] then [] else Joined(runs[..|runs| - 1]) + runs[|runs| - 1]
  }

  ghost function Traces(runs: seq<TickRun>): seq<seq<Event>> {
    seq(|runs|, i requires 0 <= i < |runs| => runs[i].trace)
  }

  /** The whole life of a pump is one run of the protocol, so that whatever holds of
      every run holds at the end of every tick. */
  lemma {:induction false} LoopIsRun(st: State, v: PumpView, plays: seq<Play>, runs: seq<TickRun>, interval: nat)
    requires LinkedRuns(st, v, plays, runs, interval)
    ensures Leads(st, Joined(Traces(runs)), if runs == [] then st else runs[|runs| - 1].to)
    decreases |runs|
  {
    if runs == [] {
      LeadsNowhere(st);
    } else {
      var init, r := runs[..|runs| - 1], runs[|runs| - 1];
      hide EndsIn, Leads, Ticks, DrainsFirst, PassDone, Drained, AllHealthy, Quiet, PassEnds, Attempts;
      forall i | 0 <= i < |init| ensures LinkAt(st, v, plays, init, interval, i) {
        assert LinkAt(st, v, plays, runs, interval, i);
        assert Ticks(init)[..i] == Ticks(runs)[..i] by { TicksPrefix(runs, i); }
      }
      LoopIsRun(st, v, plays, init, interval);
      assert LinkAt(st, v, plays, runs, interval, |init|);
      assert Traces(runs)[..|init|] == Traces(init);
      LeadsOn(st, Joined(Traces(init)), r.from, r.trace, r.to);
    }
  }

  lemma TicksPrefix(runs: seq<TickRun>, i: nat)
    requires runs != [] && i < |runs|
    ensures Ticks(runs[..|runs| - 1])[..i] == Ticks(runs)[..i]
  {
  }

  /** A clock that never runs backwards, tick by tick. */
  predicate ClockForward(plays: seq<Play>, since: int)
    decreases |plays|
  {
    plays == [] || (since <= plays[0].now <= plays[0].later && ClockForward(plays[1..], plays[0].later))
  }

  lemma {:induction false} ForwardTicks(plays: seq<Play>, ticks: seq<Tick>, since: int)
    requires ClockForward(plays, since) && |ticks| <= |plays|
    requires forall i :: 0 <= i < |ticks| ==> ticks[i].now == plays[i].now && ticks[i].later == plays[i].later
    ensures Forward(ticks, since)
    decreases |ticks|
  {
    if ticks != [] {
      var ps, ts := plays[1..], ticks[1..];
      assert forall i :: 0 <= i < |ts| ==> ts[i] == ticks[i + 1] && ps[i] == plays[i + 1];
      ForwardTicks(ps, ts, plays[0].later);
    }
  }

  /** Whatever happens during its ticks, the passes a pump makes are well spaced. */
  lemma LoopIsSpaced(st: State, start: int, plays: seq<Play>, runs: seq<TickRun>, interval: nat)
    requires LinkedRuns(st, PumpView(false, 0, start, start), plays, runs, interval) && ClockForward(plays, start)
    ensures WellSpaced(Made(PumpView(false, 0, start, start), Ticks(runs), interval), interval)
  {
    hide EndsIn, Leads, DrainsFirst, PassDone, Drained, AllHealthy, Quiet, PassEnds, Attempts, WellSpaced, Made, Forward, ClockForward;
    forall i | 0 <= i < |runs| ensures Ticks(runs)[i].now == plays[i].now && Ticks(runs)[i].later == plays[i].later {
      assert LinkAt(st, PumpView(false, 0, start, start), plays, runs, interval, i);
    }
    ForwardTicks(plays, Ticks(runs), start);
    PassesAreSpaced(start, Ticks(runs), interval);
  }

  /** A clock that never runs backwards. */
  predicate Forward(ticks: seq<Tick>, since: int)
    decreases |ticks|
  {
    ticks == [] || (since <= ticks[0].now <= ticks[0].later && Forward(ticks[1..], ticks[0].later))
  }

  /** What the pump state knows about the passes it has made. */
  ghost predicate Knows(v: PumpView, done: seq<Attempt>, since: int) {
    && (v.fullOk <==> exists i :: 0 <= i < |done| && done[i].ok)
    && (forall i :: 0 <= i < |done| ==> done[i].end <= since)
    && (v.fullOk ==> forall i :: 0 <= i < |done| && done[i].ok ==> done[i].end <= v.lastSuccess)
    && (!v.fullOk ==> v.fullAttempts == |done| && (done != [] ==> v.nextFull == done[|done| - 1].end + BackoffAfter(|done|)))
  }

  /** Every pass that follows a success starts an interval or more after it ended;
      until the first success, each pass waits out the backoff of the failures so far. */
  ghost predicate WellSpaced(done: seq<Attempt>, interval: nat) {
    && (forall i, j :: 0 <= i < j < |done| && done[i].ok ==> done[j].start >= done[i].end + interval)
    && (forall j :: 1 <= j < |done| && (forall i :: 0 <= i < j ==> !done[i].ok) ==>
          done[j].start >= done[j - 1].end + BackoffAfter(j))
  }

  lemma SuccessesSpaced(v: PumpView, done: seq<Attempt>, since: int, t: Tick, interval: nat)
    requires Knows(v, done, since) && since <= t.now && Due(v, t.now, interval)
    ensures forall i :: 0 <= i < |done| && done[i].ok ==> t.now >= done[i].end + interval
    ensures (forall i :: 0 <= i < |done| ==> !done[i].ok) && done != [] ==> t.now >= done[|done| - 1].end + BackoffAfter(|done|)
  {
    hide BackoffAfter;
  }

  lemma SpacedSnoc(done: seq<Attempt>, a: Attempt, interval: nat)
    requires WellSpaced(done, interval)
    requires forall i :: 0 <= i < |done| && done[i].ok ==> a.start >= done[i].end + interval
    requires (forall i :: 0 <= i < |done| ==> !done[i].ok) && done != [] ==> a.start >= done[|done| - 1].end + BackoffAfter(|done|)
    ensures WellSpaced(done + [a], interval)
  {
    hide BackoffAfter;
    var more := done + [a];
    assert forall i :: 0 <= i < |done| ==> more[i] == done[i];
  }

  lemma KnowsMore(v: PumpView, done: seq<Attempt>, since: int, t: Tick, interval: nat)
    requires Knows(v, done, since) && since <= t.now <= t.later && Attempts(v, t, interval)
    requires Ticked(v, t, interval).1 == GoOn
    ensures Knows(Ticked(v, t, interval).0, done + [AttemptOf(t)], t.later)
  {
    hide BackoffAfter, Due;
    var more := done + [AttemptOf(t)];
    assert more[|done|] == AttemptOf(t);
    assert forall i :: 0 <= i < |done| ==> more[i] == done[i];
  }

  lemma NextKnows(v: PumpView, done: seq<Attempt>, since: int, t: Tick, interval: nat)
    requires Knows(v, done, since) && WellSpaced(done, interval) && since <= t.now <= t.later
    ensures var more := if Attempts(v, t, interval) then done + [AttemptOf(t)] else done;
            WellSpaced(more, interval) && (Ticked(v, t, interval).1 == GoOn ==> Knows(Ticked(v, t, interval).0, more, t.later))
  {
    hide WellSpaced, BackoffAfter, Due;
    if Attempts(v, t, interval) {
      SuccessesSpaced(v, done, since, t, interval);
      SpacedSnoc(done, AttemptOf(t), interval);
      if Ticked(v, t, interval).1 == GoOn {
        KnowsMore(v, done, since, t, interval);
      }
    }
  }

  lemma NothingMade(v: PumpView, interval: nat)
    ensures Made(v, [], interval) == []
  {
  }

  lemma ForwardHead(ticks: seq<Tick>, since: int)
    requires Forward(ticks, since) && ticks != []
    ensures since <= ticks[0].now <= ticks[0].later && Forward(ticks[1..], ticks[0].later)
  {
  }

  lemma {:induction false} RunIsSpaced(v: PumpView, done: seq<Attempt>, since: int, ticks: seq<Tick>, interval: nat)
    requires Knows(v, done, since) && WellSpaced(done, interval) && Forward(ticks, since)
    ensures WellSpaced(done + Made(v, ticks, interval), interval)
    decreases |ticks|
  {
    hide *;
    if ticks == [] {
      NothingMade(v, interval);
      assert done + [] == done;
    } else {
      var t, rest := ticks[0], ticks[1..];
      var (next, c) := Ticked(v, t, interval);
      var own := Own(v, t, interval);
      OwnIs(v, t, interval);
      OneTick(v, ticks, 0, interval);
      assert ticks[0..] == ticks && done + [] == done;
      ForwardHead(ticks, since);
      NextKnows(v, done, since, t, interval);
      if c == GoOn {
        RunIsSpaced(next, done + own, t.later, rest, interval);
        assert done + (own + Made(next, rest, interval)) == (done + own) + Made(next, rest, interval);
      }
    }
  }

  /** Over any run of the pump on a forward clock, however its passes end. */
  lemma PassesAreSpaced(now: int, ticks: seq<Tick>, interval: nat)
    requires Forward(ticks, now)
    ensures WellSpaced(Made(PumpView(false, 0, now, now), ticks, interval), interval)
  {
    RunIsSpaced(PumpView(false, 0, now, now), [], now, ticks, interval);
    assert [] + Made(PumpView(false, 0, now, now), ticks, interval) == Made(PumpView(false, 0, now, now), ticks, interval);
  }

  /** No backoff once a pass has succeeded: a failed pass is due again on every
      tick that follows, whatever its backoff says. */
  lemma FailureIsDueAgain(v: PumpView, t: Tick, again: Tick, interval: nat)
    requires v.fullOk && Attempts(v, t, interval) && t.full == Err(PassFailed)
    requires t.now <= again.now && again.drain != Ok(Stop)
    ensures Attempts(Ticked(v, t, interval).0, again, interval)
  {
  }

  /** Before that, a failed pass is due again exactly when its backoff has passed. */
  lemma StartupBacksOff(v: PumpView, t: Tick, again: Tick, interval: nat)
    requires !v.fullOk && Attempts(v, t, interval) && t.full == Err(PassFailed) && again.drain != Ok(Stop)
    ensures Attempts(Ticked(v, t, interval).0, again, interval) <==> again.now >= t.later + BackoffAfter(v.fullAttempts + 1)
  {
  }
}
