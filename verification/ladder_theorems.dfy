/** What holds of every run of the ladder, whatever the models answer. */
module LadderTheorems {
  import opened Prelude
  import opened Ladder

  // ------------------------------------------------------------- runs of items

  /** The items of one run, one after another, sharing the run's state. */
  function Items<T>(v: View, steps: seq<LadderStep>, items: seq<seq<Act<T>>>, port: bool): (ps: seq<Progress<T>>)
    requires forall k :: 0 <= k < |items| ==> |items[k]| == |steps|
    ensures |ps| == |items|
    decreases |items|
  {
    if items == [] then []
    else
      var p := Item(v, steps, items[0], port);
      [p] + Items(p.view, steps, items[1..], port)
  }

  function Whole<T>(ps: seq<Progress<T>>): seq<Event<T>> {
    if ps == [] then [] else ps[0].trace + Whole(ps[1..])
  }

  function Final<T>(v: View, ps: seq<Progress<T>>): View {
    if ps == [] then v else ps[|ps| - 1].view
  }

  /** The run loop: an aborted run marks what is left and touches nothing. */
  method RunAll<T>(st: RunState, steps: seq<LadderStep>, items: seq<seq<Act<T>>>, port: bool)
    returns (outs: seq<Outcome<T>>, ghost ps: seq<Progress<T>>)
    requires forall k :: 0 <= k < |items| ==> |items[k]| == |steps|
    modifies st
    ensures ps == Items(old(st.Now()), steps, items, port) && st.Now() == Final(old(st.Now()), ps)
    ensures |outs| == |items| && forall k :: 0 <= k < |outs| ==> outs[k] == OutcomeOf(ps[k])
  {
    outs, ps := [], [];
    ghost var v := st.Now();
    for i := 0 to |items|
      invariant ps + Items(st.Now(), steps, items[i..], port) == Items(v, steps, items, port)
      invariant |outs| == |ps| == i && st.Now() == Final(v, ps)
      invariant forall k :: 0 <= k < i ==> outs[k] == OutcomeOf(ps[k])
    {
      hide Item, Items, OutcomeOf;
      ItemsUnfold(st.Now(), steps, items, i, port);
      ghost var p := Item(st.Now(), steps, items[i], port);
      if st.aborted {
        AbortedAtOnce(st.Now(), steps, items[i], port);
        outs := outs + [Aborted];
      } else {
        var out, written, calls;
        ghost var done;
        out, written, calls, done := st.RunItem(steps, items[i], port);
        outs := outs + [out];
      }
      ps := ps + [p];
    }
    assert ps + [] == ps;
  }

  lemma ItemsUnfold<T>(v: View, steps: seq<LadderStep>, items: seq<seq<Act<T>>>, i: nat, port: bool)
    requires i < |items| && forall k :: 0 <= k < |items| ==> |items[k]| == |steps|
    ensures var p := Item(v, steps, items[i], port);
            Items(v, steps, items[i..], port) == [p] + Items(p.view, steps, items[i + 1..], port)
  {
    hide Item;
    assert items[i..][0] == items[i] && items[i..][1..] == items[i + 1..];
  }

  lemma AbortedAtOnce<T>(v: View, steps: seq<LadderStep>, acts: seq<Act<T>>, port: bool)
    requires v.aborted && |acts| == |steps|
    ensures Item(v, steps, acts, port).view == v && Item(v, steps, acts, port).trace == []
    ensures OutcomeOf(Item(v, steps, acts, port)) == Aborted
  {
  }

  // --------------------------------------------------------------- accounting

  predicate IsCall<T>(e: Event<T>) {
    e.Tried? && e.step.Model?
  }

  predicate FailedWith<T>(e: Event<T>, action: LadderAction) {
    IsCall(e) && e.act.answer.Err? && ActionOf(e.act.answer.error) == action
  }

  /** A call that opened its engine's circuit. */
  predicate Opened<T>(e: Event<T>) {
    FailedWith(e, Degrade) && OpensCircuit(e.act.answer.error)
  }

  /** A call that ended the model part of the run. */
  predicate Ended<T>(e: Event<T>) {
    FailedWith(e, Abort) || FailedWith(e, Defer)
  }

  predicate MayFollow<T>(a: Event<T>, b: Event<T>) {
    IsCall(b) ==> !Ended(a) && (Opened(a) ==> a.step.engine != b.step.engine)
  }

  ghost predicate WellOrdered<T>(trace: seq<Event<T>>, deadline: int) {
    && (forall p :: 0 <= p < |trace| && IsCall(trace[p]) ==> trace[p].act.at < deadline)
    && (forall p, q :: 0 <= p < q < |trace| ==> MayFollow(trace[p], trace[q]))
  }

  /** What the run state remembers of the calls made so far. */
  ghost predicate Remembers<T>(trace: seq<Event<T>>, v: View) {
    && |Calls(trace)| + v.callsLeft == MAX_MODEL_CALLS_PER_RUN
    && (forall p :: 0 <= p < |trace| && Opened(trace[p]) ==> trace[p].step.engine in v.skip)
    && (forall p :: 0 <= p < |trace| && FailedWith(trace[p], Abort) ==> v.aborted)
    && (forall p :: 0 <= p < |trace| && FailedWith(trace[p], Defer) ==> v.modelsOff)
  }

  lemma Extends<T>(trace: seq<Event<T>>, e: Event<T>, v: View, v': View)
    requires WellOrdered(trace, v.deadline) && Remembers(trace, v)
    requires Permits(v, v', e)
    ensures WellOrdered(trace + [e], v'.deadline) && Remembers(trace + [e], v')
  {
    RecordsSnoc(trace, e);
    var longer := trace + [e];
    forall p, q | 0 <= p < q < |longer| ensures MayFollow(longer[p], longer[q]) {
      if q < |trace| {
        assert MayFollow(trace[p], trace[q]);
      }
    }
  }

  /** How one more event may change the run state. */
  predicate Permits<T>(v: View, v': View, e: Event<T>) {
    && v'.deadline == v.deadline && v.skip <= v'.skip && (v.modelsOff ==> v'.modelsOff) && (v.aborted ==> v'.aborted)
    && v'.callsLeft == v.callsLeft - (if IsCall(e) then 1 else 0)
    && (IsCall(e) ==> !v.aborted && !NoMoreModels(v, e.act.at) && e.step.engine !in v.skip)
    && (Opened(e) ==> e.step.engine in v'.skip)
    && (FailedWith(e, Abort) ==> v'.aborted)
    && (FailedWith(e, Defer) ==> v'.modelsOff)
  }

  lemma StepPermits<T>(p: Progress<T>, step: LadderStep, act: Act<T>, port: bool)
    requires p.end.None? && !p.view.aborted
    ensures var q := Stepped(p, step, act, port);
            && (q.trace == p.trace ==> q.view == p.view || q.view == p.view.(modelsOff := true))
            && (q.trace != p.trace ==>
                  |q.trace| == |p.trace| + 1 && q.trace == p.trace + [q.trace[|p.trace|]] && Permits(p.view, q.view, q.trace[|p.trace|]))
            && (q.end.None? ==> !q.view.aborted) && q.view.deadline == p.view.deadline
  {
    hide ModelRecord, RuleRecord, KindStr;
  }

  lemma StepKeepsRun<T>(before: seq<Event<T>>, p: Progress<T>, step: LadderStep, act: Act<T>, port: bool)
    requires p.end.None? && !p.view.aborted
    requires WellOrdered(before + p.trace, p.view.deadline) && Remembers(before + p.trace, p.view)
    ensures var q := Stepped(p, step, act, port);
            && WellOrdered(before + q.trace, q.view.deadline) && Remembers(before + q.trace, q.view)
            && (q.end.None? ==> !q.view.aborted) && q.view.deadline == p.view.deadline
  {
    var q := Stepped(p, step, act, port);
    StepPermits(p, step, act, port);
    hide Stepped, WellOrdered, Permits;
    if q.trace != p.trace {
      var e := q.trace[|p.trace|];
      assert before + q.trace == (before + p.trace) + [e];
      hide Remembers;
      Extends(before + p.trace, e, p.view, q.view);
    }
  }

  lemma {:induction false} ClimbKeepsRun<T>(before: seq<Event<T>>, p: Progress<T>, steps: seq<LadderStep>, acts: seq<Act<T>>, port: bool)
    requires |acts| == |steps| && (p.end.None? ==> !p.view.aborted)
    requires WellOrdered(before + p.trace, p.view.deadline) && Remembers(before + p.trace, p.view)
    ensures var q := Climb(p, steps, acts, port);
            && WellOrdered(before + q.trace, q.view.deadline) && Remembers(before + q.trace, q.view)
            && q.view.deadline == p.view.deadline
    decreases |steps|
  {
    if steps != [] && p.end.None? {
      StepKeepsRun(before, p, steps[0], acts[0], port);
      hide WellOrdered, Remembers, Stepped;
      ClimbKeepsRun(before, Stepped(p, steps[0], acts[0], port), steps[1..], acts[1..], port);
    }
  }

  lemma {:induction false} ItemsKeepRun<T>(before: seq<Event<T>>, v: View, steps: seq<LadderStep>, items: seq<seq<Act<T>>>, port: bool)
    requires forall k :: 0 <= k < |items| ==> |items[k]| == |steps|
    requires WellOrdered(before, v.deadline) && Remembers(before, v)
    ensures var ps := Items(v, steps, items, port);
            && WellOrdered(before + Whole(ps), v.deadline) && Remembers(before + Whole(ps), Final(v, ps))
    decreases |items|
  {
    if items == [] {
      assert before + Whole<T>([]) == before;
    } else {
      assert before + Begin<T>(v).trace == before;
      ClimbKeepsRun(before, Begin(v), steps, items[0], port);
      var p := Item(v, steps, items[0], port);
      var rest := Items(p.view, steps, items[1..], port);
      hide WellOrdered, Remembers, Item;
      ItemsKeepRun(before + p.trace, p.view, steps, items[1..], port);
      WholeCons(p, rest, v);
      assert before + (p.trace + Whole(rest)) == (before + p.trace) + Whole(rest);
    }
  }

  lemma WholeCons<T>(p: Progress<T>, rest: seq<Progress<T>>, v: View)
    ensures Whole([p] + rest) == p.trace + Whole(rest) && Final(v, [p] + rest) == Final(p.view, rest)
  {
    assert ([p] + rest)[1..] == rest;
  }

  /** Over a whole run: the calls made and the calls left always add up to the
      budget, every call starts before the deadline, none follows a failure that
      stopped the models, and none goes to an engine whose circuit had opened. */
  lemma RunAccounting<T>(now: int, steps: seq<LadderStep>, items: seq<seq<Act<T>>>, port: bool)
    requires forall k :: 0 <= k < |items| ==> |items[k]| == |steps|
    ensures var v := View(MAX_MODEL_CALLS_PER_RUN, now + RUN_DEADLINE_SECS, {}, false, false);
            var ps := Items(v, steps, items, port);
            && |Calls(Whole(ps))| + Final(v, ps).callsLeft == 20
            && WellOrdered(Whole(ps), now + 600)
  {
    var v := View(MAX_MODEL_CALLS_PER_RUN, now + RUN_DEADLINE_SECS, {}, false, false);
    ItemsKeepRun<T>([], v, steps, items, port);
    assert [] + Whole(Items(v, steps, items, port)) == Whole(Items(v, steps, items, port));
  }

  // -------------------------------------------------------- one item's records

  /** The engine named by the last failed or passed-over attempt. */
  function LastBad<T>(trace: seq<Event<T>>): Option<Engine> {
    if trace == [] then None
    else
      match trace[|trace| - 1]
      case Skipped(e) => Some(e)
      case Tried(step, _, rec) => if step.Model? && !rec.ok then Some(step.engine) else LastBad(trace[..|trace| - 1])
  }

  /** A reply that was read and turned down. */
  predicate Rejected<T>(e: Event<T>) {
    IsCall(e) && e.act.answer.Ok? && !Tripwire(e.act.answer.value.tier, e.act.switchOn) && e.act.parsed.Err?
  }

  /** What one record says of its attempt. */
  predicate Told<T>(e: Event<T>, from: Option<Engine>) {
    e.Tried? ==>
      match e.step
      case Model(engine) => engine == e.rec.engine && e.rec == ModelRecord(engine, from, e.act)
      case ReflexDecisive => e.rec == RuleRecord(None, e.act, UNDECIDED)
      case ReflexFallback => e.rec == RuleRecord(from, e.act, NO_MATCH)
  }

  ghost predicate ToldAll<T>(trace: seq<Event<T>>) {
    forall i :: 0 <= i < |trace| ==> Told(trace[i], LastBad(trace[..i]))
  }

  predicate Good<T>(e: Event<T>) {
    e.Tried? && e.rec.ok
  }

  ghost predicate ItemSound<T>(p: Progress<T>) {
    && ToldAll(p.trace) && (p.end.Some? ==> !p.end.value.Nothing?)
    && (p.end.None? ==> p.failedFrom == LastBad(p.trace))
    && (p.end.None? ==> (p.deterministic <==> exists i :: 0 <= i < |p.trace| && Rejected(p.trace[i])))
    && (forall i :: 0 <= i < |p.trace| - 1 ==> !Good(p.trace[i]))
    && (p.end.None? ==> forall i :: 0 <= i < |p.trace| ==> !Good(p.trace[i]))
    && (p.end.Some? && p.end.value.Produced? ==>
          p.trace != [] && Good(p.trace[|p.trace| - 1]) && p.trace[|p.trace| - 1].rec == p.end.value.rec
          && p.end.value.engine == p.end.value.rec.engine)
    && (p.end.Some? && !p.end.value.Produced? ==> forall i :: 0 <= i < |p.trace| ==> !Good(p.trace[i]))
  }

  lemma ToldMore<T>(trace: seq<Event<T>>, e: Event<T>)
    requires ToldAll(trace) && Told(e, LastBad(trace))
    ensures ToldAll(trace + [e])
  {
    forall i | 0 <= i < |trace + [e]| ensures Told((trace + [e])[i], LastBad((trace + [e])[..i])) {
      assert (trace + [e])[..i] == trace[..i];
      assert trace[..|trace|] == trace;
    }
  }

  lemma LastBadSnoc<T>(trace: seq<Event<T>>, e: Event<T>)
    ensures LastBad(trace + [e]) ==
              (if e.Skipped? then Some(e.engine) else if e.step.Model? && !e.rec.ok then Some(e.step.engine) else LastBad(trace))
  {
    assert (trace + [e])[..|trace|] == trace;
  }

  lemma RejectedSnoc<T>(trace: seq<Event<T>>, e: Event<T>)
    ensures (exists i :: 0 <= i < |trace + [e]| && Rejected((trace + [e])[i])) <==>
              Rejected(e) || exists i :: 0 <= i < |trace| && Rejected(trace[i])
  {
    assert (trace + [e])[|trace|] == e;
    if i :| 0 <= i < |trace| && Rejected(trace[i]) {
      assert Rejected((trace + [e])[i]);
    }
  }

  /** How one more event may end or carry on an item. */
  ghost predicate Carries<T>(p: Progress<T>, q: Progress<T>, e: Event<T>) {
    && q.trace == p.trace + [e]
    && (q.end.None? ==>
          && !Good(e) && (q.deterministic <==> p.deterministic || Rejected(e))
          && q.failedFrom == (if e.Skipped? then Some(e.engine)
                              else if e.step.Model? && !e.rec.ok then Some(e.step.engine) else p.failedFrom))
    && (q.end.Some? ==> !q.end.value.Nothing? && (q.end.value.Produced? <==> Good(e)))
    && (q.end.Some? && q.end.value.Produced? ==> q.end.value.rec == e.rec && q.end.value.engine == e.rec.engine)
  }

  lemma SoundSnoc<T>(p: Progress<T>, q: Progress<T>, e: Event<T>)
    requires p.end.None? && ItemSound(p) && Told(e, LastBad(p.trace)) && Carries(p, q, e)
    ensures ItemSound(q)
  {
    ToldMore(p.trace, e);
    LastBadSnoc(p.trace, e);
    RejectedSnoc(p.trace, e);
    hide LastBad, ToldAll, Told, Rejected, Good;
    assert q.trace[|q.trace| - 1] == e;
    assert forall i :: 0 <= i < |p.trace| ==> q.trace[i] == p.trace[i];
  }

  lemma ModelCarries<T>(p: Progress<T>, engine: Engine, act: Act<T>)
    requires p.end.None?
    ensures var q := ModelStep(p, engine, act);
            if q.trace == p.trace then q.end == Some(Deferred)
            else
              var e := q.trace[|p.trace|];
              && Carries(p, q, e)
              && (e.Tried? ==> e.step == Model(engine) && e.rec == ModelRecord(engine, p.failedFrom, act) && e.act == act)
  {
    hide KindStr;
  }

  lemma StepIsSound<T>(p: Progress<T>, step: LadderStep, act: Act<T>, port: bool)
    requires p.end.None? && ItemSound(p)
    ensures ItemSound(Stepped(p, step, act, port))
  {
    SoundFailedFrom(p);
    hide ItemSound, LastBad, ModelStep, RuleStep, Carries;
    match step
    case Model(engine) =>
      if port {
        ModelIsSound(p, engine, act);
      }
    case ReflexDecisive => RuleIsSound(p, step, None, UNDECIDED, act);
    case ReflexFallback => RuleIsSound(p, step, p.failedFrom, NO_MATCH, act);
  }

  lemma SoundFailedFrom<T>(p: Progress<T>)
    requires p.end.None? && ItemSound(p)
    ensures p.failedFrom == LastBad(p.trace)
  {
  }

  lemma ModelIsSound<T>(p: Progress<T>, engine: Engine, act: Act<T>)
    requires p.end.None? && ItemSound(p) && p.failedFrom == LastBad(p.trace)
    ensures ItemSound(ModelStep(p, engine, act))
  {
    var q := ModelStep(p, engine, act);
    ModelCarries(p, engine, act);
    hide ItemSound, ModelStep, ModelRecord, LastBad, KindStr, Carries;
    if q.trace != p.trace {
      SoundSnoc(p, q, q.trace[|p.trace|]);
    } else {
      DeferredIsSound(p, q);
    }
  }

  lemma RuleIsSound<T>(p: Progress<T>, step: LadderStep, from: Option<Engine>, missing: string, act: Act<T>)
    requires p.end.None? && ItemSound(p) && p.failedFrom == LastBad(p.trace)
    requires (step.ReflexDecisive? && from == None && missing == UNDECIDED)
             || (step.ReflexFallback? && from == p.failedFrom && missing == NO_MATCH)
    ensures ItemSound(RuleStep(p, step, from, missing, act))
  {
    var q := RuleStep(p, step, from, missing, act);
    var e := Tried(step, act, RuleRecord(from, act, missing));
    hide ItemSound, LastBad;
    SoundSnoc(p, q, e);
  }

  lemma DeferredIsSound<T>(p: Progress<T>, q: Progress<T>)
    requires p.end.None? && ItemSound(p) && q.trace == p.trace && q.end == Some(Deferred)
    ensures ItemSound(q)
  {
    hide LastBad, ToldAll;
  }

  lemma {:induction false} ClimbIsSound<T>(p: Progress<T>, steps: seq<LadderStep>, acts: seq<Act<T>>, port: bool)
    requires |acts| == |steps| && ItemSound(p)
    ensures ItemSound(Climb(p, steps, acts, port))
    decreases |steps|
  {
    if steps != [] && p.end.None? {
      StepIsSound(p, steps[0], acts[0], port);
      hide ItemSound, Stepped;
      ClimbIsSound(Stepped(p, steps[0], acts[0], port), steps[1..], acts[1..], port);
    }
  }

  /** Every attempt of an item leaves exactly one record, which names the last
      engine that failed or was passed over before it; only the last can be good,
      and then it is the one returned; "deterministic" means that some reply was
      read and turned down; a remote reply is used only with the switch on. */
  lemma ItemAccounting<T>(v: View, steps: seq<LadderStep>, acts: seq<Act<T>>, port: bool)
    requires |acts| == |steps|
    ensures var p := Item(v, steps, acts, port);
            && ItemSound(p)
            && (OutcomeOf(p).Nothing? ==>
                  (OutcomeOf(p).deterministic <==> exists i :: 0 <= i < |p.trace| && Rejected(p.trace[i])))
            && (OutcomeOf(p).Produced? && OutcomeOf(p).rec.served == Some(Remote) ==>
                  p.trace[|p.trace| - 1].act.switchOn == Some(true))
  {
    ClimbIsSound(Begin(v), steps, acts, port);
    var p := Item(v, steps, acts, port);
    hide Climb;
    if OutcomeOf(p).Produced? {
      LastIsTold(p);
    }
  }

  lemma LastIsTold<T>(p: Progress<T>)
    requires ItemSound(p) && p.trace != []
    ensures Told(p.trace[|p.trace| - 1], LastBad(p.trace[..|p.trace| - 1]))
  {
  }

  // ------------------------------------------------------------- sticky defer

  /** A planned model engine whose circuit is still closed. */
  predicate Available(steps: seq<LadderStep>, v: View) {
    exists k :: 0 <= k < |steps| && steps[k].Model? && steps[k].engine !in v.skip
  }

  /** With the models off, the only way to produce is the decisive rule. */
  predicate HeldBack<T>(p: Progress<T>) {
    || OutcomeOf(p).Deferred?
    || (OutcomeOf(p).Produced? && |p.trace| == 1 && p.trace[0].Tried? && p.trace[0].step.ReflexDecisive?)
  }

  lemma {:induction false} ModelsHeldBack<T>(p: Progress<T>, engines: seq<LadderStep>, acts: seq<Act<T>>)
    requires p.end.None? && p.view.modelsOff && |acts| == |engines| + 1
    requires forall k :: 0 <= k < |engines| ==> engines[k].Model?
    requires exists k :: 0 <= k < |engines| && engines[k].engine !in p.view.skip
    ensures var q := Climb(p, engines + [ReflexFallback], acts, true);
            q.end == Some(Deferred) && q.view == p.view
    decreases |engines|
  {
    var steps := engines + [ReflexFallback];
    assert steps[0] == engines[0] && steps[1..] == engines[1..] + [ReflexFallback];
    var q := Stepped(p, steps[0], acts[0], true);
    if q.end.None? {
      assert forall k :: 0 <= k < |engines| - 1 ==> engines[1..][k] == engines[k + 1];
      ModelsHeldBack(q, engines[1..], acts[1..]);
    }
  }

  function PlannedModels(remoteAllowed: bool, executiveEnabled: bool): seq<LadderStep> {
    (if remoteAllowed && executiveEnabled then [Model(Executive)] else []) + [Model(Local)]
  }

  lemma HeldBackItem<T>(v: View, cap: Capability, remoteAllowed: bool, executiveEnabled: bool, acts: seq<Act<T>>)
    requires var steps := Planned(cap, remoteAllowed, executiveEnabled, true);
             |acts| == |steps| && v.modelsOff && !v.aborted && Available(steps, v)
    ensures var p := Item(v, Planned(cap, remoteAllowed, executiveEnabled, true), acts, true);
            HeldBack(p) && p.view == v
  {
    var steps, engines := Planned(cap, remoteAllowed, executiveEnabled, true), PlannedModels(remoteAllowed, executiveEnabled);
    var k :| 0 <= k < |steps| && steps[k].Model? && steps[k].engine !in v.skip;
    if cap == Classify {
      assert steps == [ReflexDecisive] + (engines + [ReflexFallback]);
      assert engines[k - 1] == steps[k];
      var q := Stepped(Begin(v), steps[0], acts[0], true);
      assert steps[1..] == engines + [ReflexFallback];
      if q.end.None? {
        ModelsHeldBack(q, engines, acts[1..]);
      } else {
        assert Climb(q, steps[1..], acts[1..], true) == q;
      }
    } else {
      assert steps == engines + [ReflexFallback];
      assert engines[k] == steps[k];
      ModelsHeldBack(Begin(v), engines, acts);
    }
  }

  /** Whatever turns the models off leaves a planned engine that was not skipped. */
  lemma {:induction false} OffLeavesAvailable<T>(p: Progress<T>, all: seq<LadderStep>, k: nat, acts: seq<Act<T>>)
    requires k <= |all| && |acts| == |all| - k
    requires !p.view.modelsOff
    ensures var q := Climb(p, all[k..], acts, true);
            q.view.modelsOff ==> Available(all, q.view)
    decreases |all| - k
  {
    if k < |all| && p.end.None? {
      var q := Stepped(p, all[k], acts[0], true);
      assert all[k..][0] == all[k] && all[k..][1..] == all[k + 1..];
      if q.view.modelsOff {
        assert q.end == Some(Deferred) && all[k].Model? && all[k].engine !in q.view.skip;
      } else {
        OffLeavesAvailable(q, all, k + 1, acts[1..]);
      }
    }
  }

  /** The run invariant behind the sticky defer. */
  predicate OffIsSafe(steps: seq<LadderStep>, v: View) {
    v.modelsOff && !v.aborted ==> Available(steps, v)
  }

  lemma ItemKeepsOffSafe<T>(v: View, cap: Capability, remoteAllowed: bool, executiveEnabled: bool, acts: seq<Act<T>>)
    requires var steps := Planned(cap, remoteAllowed, executiveEnabled, true);
             |acts| == |steps| && OffIsSafe(steps, v)
    ensures var steps := Planned(cap, remoteAllowed, executiveEnabled, true);
            var p := Item(v, steps, acts, true);
            && OffIsSafe(steps, p.view)
            && (v.modelsOff && !v.aborted ==> HeldBack(p) && p.view == v)
            && (v.aborted ==> p.view == v)
  {
    var steps := Planned(cap, remoteAllowed, executiveEnabled, true);
    if v.aborted {
      AbortedAtOnce(v, steps, acts, true);
    } else if v.modelsOff {
      HeldBackItem(v, cap, remoteAllowed, executiveEnabled, acts);
    } else {
      assert steps[0..] == steps;
      OffLeavesAvailable(Begin(v), steps, 0, acts);
    }
  }

  lemma {:induction false} ItemsHeldBack<T>(v: View, cap: Capability, remoteAllowed: bool, executiveEnabled: bool,
                                            items: seq<seq<Act<T>>>, i: nat, j: nat)
    requires var steps := Planned(cap, remoteAllowed, executiveEnabled, true);
             (forall k :: 0 <= k < |items| ==> |items[k]| == |steps|) && OffIsSafe(steps, v)
    requires i < j < |items| || (v.modelsOff && !v.aborted && j < |items|)
    ensures var ps := Items(v, Planned(cap, remoteAllowed, executiveEnabled, true), items, true);
            (v.modelsOff && !v.aborted) || (ps[i].view.modelsOff && !ps[i].view.aborted) ==> HeldBack(ps[j])
    decreases |items|
  {
    var steps := Planned(cap, remoteAllowed, executiveEnabled, true);
    var p := Item(v, steps, items[0], true);
    ItemKeepsOffSafe(v, cap, remoteAllowed, executiveEnabled, items[0]);
    var ps, rest := Items(v, steps, items, true), Items(p.view, steps, items[1..], true);
    assert ps == [p] + rest;
    hide Item, HeldBack, Available, Planned;
    if j > 0 {
      if i == 0 || (v.modelsOff && !v.aborted) {
        if p.view.modelsOff && !p.view.aborted {
          ItemsHeldBack(p.view, cap, remoteAllowed, executiveEnabled, items[1..], 0, j - 1);
        }
      } else {
        ItemsHeldBack(p.view, cap, remoteAllowed, executiveEnabled, items[1..], i - 1, j - 1);
      }
    }
  }

  /** Sticky defer: once the models are off for a run, every later item is decided
      by the decisive rule or left for a later run; none falls through to the
      fallback rule. */
  lemma StickyDefer<T>(now: int, cap: Capability, remoteAllowed: bool, executiveEnabled: bool, items: seq<seq<Act<T>>>, i: nat, j: nat)
    requires forall k :: 0 <= k < |items| ==> |items[k]| == |Planned(cap, remoteAllowed, executiveEnabled, true)|
    requires i < j < |items|
    ensures var v := View(MAX_MODEL_CALLS_PER_RUN, now + RUN_DEADLINE_SECS, {}, false, false);
            var ps := Items(v, Planned(cap, remoteAllowed, executiveEnabled, true), items, true);
            ps[i].view.modelsOff && !ps[i].view.aborted ==> HeldBack(ps[j])
  {
    var v := View(MAX_MODEL_CALLS_PER_RUN, now + RUN_DEADLINE_SECS, {}, false, false);
    ItemsHeldBack(v, cap, remoteAllowed, executiveEnabled, items, i, j);
  }

  // --------------------------------------------- records, calls and their usage

  datatype Usage = Usage(prompt: nat, completion: nat)

  function Plus(a: Usage, b: Usage): Usage {
    Usage(a.prompt + b.prompt, a.completion + b.completion)
  }

  function Count(n: Option<nat>): nat {
    if n.Some? then n.value else 0
  }

  function UsageOf(recs: seq<Record>): Usage {
    if recs == [] then Usage(0, 0) else Plus(Usage(Count(recs[0].prompt), Count(recs[0].completion)), UsageOf(recs[1..]))
  }

  /** What the replies actually received say was spent. */
  function Received<T>(trace: seq<Event<T>>): Usage {
    if trace == [] then Usage(0, 0)
    else
      var rest := Received(trace[1..]);
      if IsCall(trace[0]) && trace[0].act.answer.Ok? then
        Plus(Usage(Count(trace[0].act.answer.value.prompt), Count(trace[0].act.answer.value.completion)), rest)
      else rest
  }

  function ModelEngines(recs: seq<Record>): seq<Engine> {
    if recs == [] then [] else (if recs[0].engine == Reflex then [] else [recs[0].engine]) + ModelEngines(recs[1..])
  }

  predicate RealEngine<T>(e: Event<T>) {
    IsCall(e) ==> e.step.engine != Reflex
  }

  lemma OneRecord<T>(e: Event<T>, from: Option<Engine>)
    requires e.Tried? && Told(e, from)
    ensures var reply := IsCall(e) && e.act.answer.Ok?;
            && Count(e.rec.prompt) == (if reply then Count(e.act.answer.value.prompt) else 0)
            && Count(e.rec.completion) == (if reply then Count(e.act.answer.value.completion) else 0)
            && (IsCall(e) ==> e.rec.engine == e.step.engine)
            && (!IsCall(e) ==> e.rec.engine == Reflex)
  {
    hide KindStr;
  }

  lemma RecordCons(r: Record, rs: seq<Record>)
    ensures UsageOf([r] + rs) == Plus(Usage(Count(r.prompt), Count(r.completion)), UsageOf(rs))
    ensures ModelEngines([r] + rs) == (if r.engine == Reflex then [] else [r.engine]) + ModelEngines(rs)
  {
    assert ([r] + rs)[1..] == rs;
  }

  ghost predicate Recorded<T>(e: Event<T>) {
    RealEngine(e) && exists from :: Told(e, from)
  }

  lemma {:induction false} RecordsTell<T>(trace: seq<Event<T>>)
    requires forall i :: 0 <= i < |trace| ==> Recorded(trace[i])
    ensures ModelEngines(Records(trace)) == Calls(trace)
    ensures UsageOf(Records(trace)) == Received(trace)
  {
    if trace != [] {
      var e, rest := trace[0], trace[1..];
      assert Recorded(e);
      TraceHead(trace);
      if e.Tried? {
        var from :| Told(e, from);
        OneRecord(e, from);
        RecordCons(e.rec, Records(rest));
      }
      hide Told, UsageOf, ModelEngines, Recorded, Records, Calls, Received;
      RecordsTell(rest);
    }
  }

  lemma TraceHead<T>(trace: seq<Event<T>>)
    requires trace != []
    ensures var e, rest := trace[0], trace[1..];
            && Records(trace) == (if e.Tried? then [e.rec] + Records(rest) else Records(rest))
            && Calls(trace) == (if IsCall(e) then [e.step.engine] else []) + Calls(rest)
            && Received(trace) == (if IsCall(e) && e.act.answer.Ok? then
                                     Plus(Usage(Count(e.act.answer.value.prompt), Count(e.act.answer.value.completion)), Received(rest))
                                   else Received(rest))
  {
    assert [] + Records(trace[1..]) == Records(trace[1..]);
  }

  /** Every call made is one the plan has a step for. */
  ghost predicate AllPlanned<T>(all: seq<LadderStep>, trace: seq<Event<T>>) {
    forall i :: 0 <= i < |trace| && IsCall(trace[i]) ==> trace[i].step in all
  }

  lemma StepIsPlanned<T>(all: seq<LadderStep>, p: Progress<T>, step: LadderStep, act: Act<T>, port: bool)
    requires step in all && AllPlanned(all, p.trace)
    ensures AllPlanned(all, Stepped(p, step, act, port).trace)
  {
    hide KindStr, ModelRecord, RuleRecord;
  }

  lemma {:induction false} ClimbIsPlanned<T>(all: seq<LadderStep>, p: Progress<T>, steps: seq<LadderStep>, acts: seq<Act<T>>, port: bool)
    requires |acts| == |steps| && (forall k :: 0 <= k < |steps| ==> steps[k] in all) && AllPlanned(all, p.trace)
    ensures AllPlanned(all, Climb(p, steps, acts, port).trace)
    decreases |steps|
  {
    if steps != [] && p.end.None? {
      StepIsPlanned(all, p, steps[0], acts[0], port);
      hide Stepped, AllPlanned;
      assert forall k :: 0 <= k < |steps| - 1 ==> steps[1..][k] == steps[k + 1];
      ClimbIsPlanned(all, Stepped(p, steps[0], acts[0], port), steps[1..], acts[1..], port);
    }
  }

  /** The executive engine is called only with a port, with remote access and
      with the user's switch on when the run was planned. */
  lemma ExecutiveOnlyIfAllowed<T>(v: View, cap: Capability, remoteAllowed: bool, executiveEnabled: bool, port: bool,
                                  acts: seq<Act<T>>, i: nat)
    requires |acts| == |Planned(cap, remoteAllowed, executiveEnabled, port)|
    ensures var p := Item(v, Planned(cap, remoteAllowed, executiveEnabled, port), acts, port);
            i < |p.trace| && IsCall(p.trace[i]) ==>
              port && (p.trace[i].step.engine == Local || (p.trace[i].step.engine == Executive && remoteAllowed && executiveEnabled))
  {
    var steps := Planned(cap, remoteAllowed, executiveEnabled, port);
    ClimbIsPlanned(steps, Begin<T>(v), steps, acts, port);
  }

  /** The model records of an item are one per call, in order, and the tokens they
      carry are exactly those of the replies received, each counted once. */
  lemma ItemUsage<T>(v: View, steps: seq<LadderStep>, acts: seq<Act<T>>, port: bool)
    requires |acts| == |steps| && forall k :: 0 <= k < |steps| ==> steps[k] != Model(Reflex)
    ensures var p := Item(v, steps, acts, port);
            ModelEngines(Records(p.trace)) == Calls(p.trace) && UsageOf(Records(p.trace)) == Received(p.trace)
  {
    ClimbIsSound(Begin(v), steps, acts, port);
    ClimbIsPlanned(steps, Begin<T>(v), steps, acts, port);
    var p := Item(v, steps, acts, port);
    hide Climb, Told;
    forall i | 0 <= i < |p.trace| ensures Recorded(p.trace[i]) {
      assert Told(p.trace[i], LastBad(p.trace[..i]));
    }
    RecordsTell(p.trace);
  }

  // ----------------------------------------------- where a value can come from

  /** A produced value is the parser's reading of a reply of this item, or its rule's. */
  lemma {:induction false} ProducedFrom<T>(p: Progress<T>, steps: seq<LadderStep>, acts: seq<Act<T>>, port: bool) returns (k: nat)
    requires |acts| == |steps| && p.end.None?
    ensures var q := Climb(p, steps, acts, port);
            q.end.Some? && q.end.value.Produced? ==>
              k < |acts| && (acts[k].parsed == Ok(q.end.value.value) || acts[k].rule == Some(q.end.value.value))
    decreases |steps|
  {
    k := 0;
    if steps != [] {
      var q := Stepped(p, steps[0], acts[0], port);
      if q.end.None? {
        var j := ProducedFrom(q, steps[1..], acts[1..], port);
        k := j + 1;
      } else {
        assert Climb(q, steps[1..], acts[1..], port) == q;
      }
    }
  }
}
