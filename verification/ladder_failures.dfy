/** What each answer does to its item and to the rest of the run, answer by answer. */
module LadderFailures {
  import opened Prelude
  import opened Ladder
  import opened LadderTheorems

  // ------------------------------------------------------------------ the plan

  /** A plan in its own words: the decisive rule first, for classification only; the
      remote engine only with a port, remote access and the switch, and before the
      local one, which needs the port alone; the fallback rule last. */
  lemma PlanIs(cap: Capability, remoteAllowed: bool, executiveEnabled: bool, port: bool)
    ensures var steps := Planned(cap, remoteAllowed, executiveEnabled, port); var n := |steps|;
            && n >= 1 && steps[n - 1] == ReflexFallback && (forall k :: 0 <= k < n - 1 ==> steps[k] != ReflexFallback)
            && (steps[0] == ReflexDecisive <==> cap == Classify) && (forall k :: 0 < k < n ==> steps[k] != ReflexDecisive)
            && (Model(Local) in steps <==> port)
            && (Model(Executive) in steps <==> port && remoteAllowed && executiveEnabled)
            && Model(Reflex) !in steps
            && (forall i, j :: 0 <= i < j < n ==> steps[i] != steps[j])
            && (forall i, j :: 0 <= i < n && 0 <= j < n && steps[i] == Model(Executive) && steps[j] == Model(Local) ==> i < j)
  {
  }

  /** The names failures are recorded under. */
  lemma FailureNames()
    ensures KindStr(Unavailable(NoProvider)) == "unavailable.no_provider"
    ensures KindStr(Unavailable(RequestRejected)) == "unavailable.request_rejected"
    ensures KindStr(Unavailable(BackendConfig)) == "unavailable.backend_config"
    ensures KindStr(Unavailable(ResponseTooLarge)) == "unavailable.response_too_large"
    ensures KindStr(Busy) == "busy" && KindStr(RateLimited) == "rate_limited" && KindStr(NotReady) == "not_ready"
    ensures KindStr(Timeout) == "timeout" && KindStr(Forbidden) == "forbidden" && KindStr(BadRequest) == "bad_request"
    ensures KindStr(OtherFailure) == "other" && KindStr(GenerationEnding) == "generation_ending"
    ensures KindStr(ConnectionLost) == "connection_lost" && KindStr(Cancelled) == "cancelled"
  {
  }

  // ------------------------------------------------------------- one step

  /** An engine is called exactly if its circuit is closed, the models are on, a
      call is left and the deadline has not come; a closed-off engine is passed
      over, and in the other cases the item is left for a later run. */
  lemma WhenCalled<T>(p: Progress<T>, engine: Engine, act: Act<T>)
    requires p.end.None?
    ensures var q, v := Stepped(p, Model(engine), act, true), p.view;
            && (engine in v.skip ==> q == p.(trace := p.trace + [Skipped(engine)], failedFrom := Some(engine)))
            && (engine !in v.skip && (v.modelsOff || v.callsLeft == 0 || act.at >= v.deadline) ==>
                  q.end == Some(Deferred) && q.trace == p.trace && q.view == v.(modelsOff := true))
            && (engine !in v.skip && !v.modelsOff && v.callsLeft > 0 && act.at < v.deadline ==>
                  && |q.trace| == |p.trace| + 1 && q.trace[..|p.trace|] == p.trace && q.view.callsLeft == v.callsLeft - 1
                  && q.trace[|p.trace|].Tried? && q.trace[|p.trace|].step == Model(engine) && q.trace[|p.trace|].act == act)
  {
    hide ModelRecord;
  }

  /** What a call answered with a failure does. */
  lemma WhenFailed<T>(p: Progress<T>, engine: Engine, act: Act<T>)
    requires p.end.None? && act.answer.Err?
    requires engine !in p.view.skip && !p.view.modelsOff && p.view.callsLeft > 0 && act.at < p.view.deadline
    ensures var q, v, f := Stepped(p, Model(engine), act, true), p.view.(callsLeft := p.view.callsLeft - 1), act.answer.error;
            && q.trace == p.trace + [Tried(Model(engine), act, Record(engine, p.failedFrom, None, None, None, false, Some(KindStr(f))))]
            && (f == Busy || f == RateLimited || f == NotReady ==> q.end == Some(Deferred) && q.view == v.(modelsOff := true))
            && (f == ConnectionLost || f == Cancelled || f == GenerationEnding ==>
                  q.end == Some(Aborted) && q.view == v.(aborted := true))
            && (f == Forbidden || f == Unavailable(NoProvider) || f == Unavailable(BackendConfig) ==>
                  q.end.None? && q.view == v.(skip := v.skip + {engine}) && q.failedFrom == Some(engine) && q.deterministic == p.deterministic)
            && (f == Timeout || f == BadRequest || f == OtherFailure || f == Unavailable(RequestRejected) || f == Unavailable(ResponseTooLarge) ==>
                  q.end.None? && q.view == v && q.failedFrom == Some(engine) && q.deterministic == p.deterministic)
  {
    hide KindStr;
  }

  /** What a call answered with a reply does: a usable reply ends the item; one that
      came from the remote tier without the switch on is not read, and one the
      parser turns down is recorded so, and either way the next step is tried. */
  lemma WhenAnswered<T>(p: Progress<T>, engine: Engine, act: Act<T>)
    requires p.end.None? && act.answer.Ok?
    requires engine !in p.view.skip && !p.view.modelsOff && p.view.callsLeft > 0 && act.at < p.view.deadline
    ensures var q, v, reply := Stepped(p, Model(engine), act, true), p.view.(callsLeft := p.view.callsLeft - 1), act.answer.value;
            var rec := Record(engine, p.failedFrom, Some(reply.tier), reply.prompt, reply.completion, false, None);
            && q.view == v
            && (if reply.tier == Remote && act.switchOn != Some(true) then
                  && q.end.None? && q.failedFrom == Some(engine) && q.deterministic == p.deterministic
                  && q.trace == p.trace + [Tried(Model(engine), act, rec.(errorKind := Some("privacy_tripwire")))]
                else if act.parsed.Ok? then
                  && q.trace == p.trace + [Tried(Model(engine), act, rec.(ok := true))]
                  && q.end == Some(Produced(act.parsed.value, engine, rec.(ok := true)))
                else
                  && q.end.None? && q.failedFrom == Some(engine) && q.deterministic
                  && q.trace == p.trace + [Tried(Model(engine), act, rec.(errorKind := Some(act.parsed.error)))])
  {
  }

  /** A rule that answers ends the item, and one that does not is recorded so. */
  lemma WhenRule<T>(p: Progress<T>, step: LadderStep, act: Act<T>, port: bool)
    requires p.end.None? && (step == ReflexDecisive || step == ReflexFallback)
    ensures var q := Stepped(p, step, act, port);
            var from, missing := if step == ReflexFallback then p.failedFrom else None, if step == ReflexFallback then "no_match" else "undecided";
            var rec := Record(Reflex, from, None, None, None, act.rule.Some?, if act.rule.Some? then None else Some(missing));
            && q.view == p.view && q.trace == p.trace + [Tried(step, act, rec)]
            && q.end == (if act.rule.Some? then Some(Produced(act.rule.value, Reflex, rec)) else None)
            && q.failedFrom == p.failedFrom && q.deterministic == p.deterministic
  {
  }

  /** Without a port an engine step is not taken at all. */
  lemma WithoutPort<T>(p: Progress<T>, engine: Engine, act: Act<T>)
    ensures Stepped(p, Model(engine), act, false) == p
  {
  }

  /** An item goes down its steps in order: each has its one event, until one ends
      the item, and after the last nothing has been decided. */
  ghost predicate InStepOrder<T>(trace: seq<Event<T>>, steps: seq<LadderStep>, acts: seq<Act<T>>) {
    |trace| <= |steps| == |acts|
    && forall m :: 0 <= m < |trace| ==>
         if trace[m].Skipped? then steps[m] == Model(trace[m].engine) else trace[m].step == steps[m] && trace[m].act == acts[m]
  }

  lemma StepAdds<T>(p: Progress<T>, step: LadderStep, act: Act<T>)
    requires p.end.None?
    ensures var q := Stepped(p, step, act, true);
            && (q.trace == p.trace ==> q.end == Some(Deferred))
            && (q.trace != p.trace ==>
                  && |q.trace| == |p.trace| + 1 && q.trace[..|p.trace|] == p.trace
                  && var e := q.trace[|p.trace|]; if e.Skipped? then step == Model(e.engine) else e.step == step && e.act == act)
  {
    hide ModelRecord, RuleRecord;
  }

  lemma {:induction false} ClimbsInOrder<T>(p: Progress<T>, steps: seq<LadderStep>, acts: seq<Act<T>>, k: nat)
    requires k <= |steps| == |acts| && (p.end.None? ==> |p.trace| == k) && InStepOrder(p.trace, steps, acts)
    ensures var q := Climb(p, steps[k..], acts[k..], true);
            && InStepOrder(q.trace, steps, acts) && p.trace <= q.trace
            && (q.end.None? ==> |q.trace| == |steps|)
    decreases |steps| - k
  {
    if k < |steps| && p.end.None? {
      assert steps[k..][0] == steps[k] && steps[k..][1..] == steps[k + 1..] && acts[k..][0] == acts[k] && acts[k..][1..] == acts[k + 1..];
      var q := Stepped(p, steps[k], acts[k], true);
      StepAdds(p, steps[k], acts[k]);
      hide Stepped;
      ClimbsInOrder(q, steps, acts, k + 1);
      assert p.trace <= q.trace;
    }
  }

  lemma ItemInOrder<T>(v: View, steps: seq<LadderStep>, acts: seq<Act<T>>)
    requires |acts| == |steps|
    ensures var p := Item(v, steps, acts, true);
            InStepOrder(p.trace, steps, acts) && (p.end.None? ==> |p.trace| == |steps|)
  {
    assert steps[0..] == steps && acts[0..] == acts;
    if v.aborted {
      AbortedAtOnce(v, steps, acts, true);
    } else {
      ClimbsInOrder(Begin(v), steps, acts, 0);
    }
  }

  // ----------------------------------------------------- over a whole run

  /** A call that was answered with this failure. */
  predicate FailedBy<T>(e: Event<T>, f: Failure) {
    e.Tried? && e.step.Model? && e.act.answer == Err(f)
  }

  predicate Busies(f: Failure) {
    f == Busy || f == RateLimited || f == NotReady
  }

  predicate Ends(f: Failure) {
    f == ConnectionLost || f == Cancelled || f == GenerationEnding
  }

  predicate ShutsOut(f: Failure) {
    f == Forbidden || f == Unavailable(NoProvider) || f == Unavailable(BackendConfig)
  }

  /** What the events of an item say about how it ended and left the run. */
  ghost predicate Answers<T>(p: Progress<T>) {
    && (forall m, f :: 0 <= m < |p.trace| && FailedBy(p.trace[m], f) && Busies(f) ==>
          m == |p.trace| - 1 && p.end == Some(Deferred) && p.view.modelsOff)
    && (forall m, f :: 0 <= m < |p.trace| && FailedBy(p.trace[m], f) && Ends(f) ==>
          m == |p.trace| - 1 && p.end == Some(Aborted) && p.view.aborted)
    && (p.end != Some(Aborted) ==> !p.view.aborted)
  }

  lemma MoreAnswers<T>(p: Progress<T>, q: Progress<T>, e: Event<T>)
    requires p.end.None? && Answers(p) && q.trace == p.trace + [e]
    requires forall f :: FailedBy(e, f) && Busies(f) ==> q.end == Some(Deferred) && q.view.modelsOff
    requires forall f :: FailedBy(e, f) && Ends(f) ==> q.end == Some(Aborted) && q.view.aborted
    requires q.end != Some(Aborted) ==> !q.view.aborted
    ensures Answers(q)
  {
    hide FailedBy, Busies, Ends;
    forall m, f | 0 <= m < |p.trace| && FailedBy(q.trace[m], f) ensures !Busies(f) && !Ends(f) {
      assert FailedBy(p.trace[m], f);
    }
  }

  lemma ModelAnswers<T>(p: Progress<T>, engine: Engine, act: Act<T>)
    requires p.end.None? && Answers(p)
    ensures Answers(Stepped(p, Model(engine), act, true))
  {
    var q := Stepped(p, Model(engine), act, true);
    WhenCalled(p, engine, act);
    if engine !in p.view.skip && !p.view.modelsOff && p.view.callsLeft > 0 && act.at < p.view.deadline {
      if act.answer.Err? {
        WhenFailed(p, engine, act);
      } else {
        WhenAnswered(p, engine, act);
      }
      hide Stepped, Answers;
      assert q.trace == p.trace + [q.trace[|p.trace|]];
      NotAborted(p);
      MoreAnswers(p, q, q.trace[|p.trace|]);
    } else if engine in p.view.skip {
      hide Stepped, Answers;
      NotAborted(p);
      MoreAnswers(p, q, Skipped(engine));
    }
  }

  lemma NotAborted<T>(p: Progress<T>)
    requires p.end.None? && Answers(p)
    ensures !p.view.aborted
  {
  }

  lemma StepAnswers<T>(p: Progress<T>, step: LadderStep, act: Act<T>, port: bool)
    requires p.end.None? && Answers(p)
    ensures Answers(Stepped(p, step, act, port))
  {
    hide Stepped, Answers;
    if step.Model? {
      if port {
        ModelAnswers(p, step.engine, act);
      } else {
        WithoutPort(p, step.engine, act);
      }
    } else {
      WhenRule(p, step, act, port);
      NotAborted(p);
      var q := Stepped(p, step, act, port);
      MoreAnswers(p, q, q.trace[|p.trace|]);
    }
  }

  lemma {:induction false} ClimbAnswers<T>(p: Progress<T>, steps: seq<LadderStep>, acts: seq<Act<T>>, port: bool)
    requires |acts| == |steps| && Answers(p)
    ensures Answers(Climb(p, steps, acts, port))
    decreases |steps|
  {
    if steps != [] && p.end.None? {
      StepAnswers(p, steps[0], acts[0], port);
      hide Stepped, Answers;
      ClimbAnswers(Stepped(p, steps[0], acts[0], port), steps[1..], acts[1..], port);
    }
  }

  lemma ItemAnswers<T>(v: View, steps: seq<LadderStep>, acts: seq<Act<T>>, port: bool)
    requires |acts| == |steps|
    ensures Answers(Item(v, steps, acts, port))
  {
    ClimbAnswers(Begin<T>(v), steps, acts, port);
  }

  /** An item of a run starts where the one before left the run. */
  lemma {:induction false} ItemAt<T>(v: View, steps: seq<LadderStep>, items: seq<seq<Act<T>>>, port: bool, i: nat)
    requires (forall k :: 0 <= k < |items| ==> |items[k]| == |steps|) && i < |items|
    ensures var ps := Items(v, steps, items, port);
            ps[i] == Item(if i == 0 then v else ps[i - 1].view, steps, items[i], port)
    decreases |items|
  {
    hide Item;
    if i > 0 {
      var p := Item(v, steps, items[0], port);
      ItemAt(p.view, steps, items[1..], port, i - 1);
    }
  }

  lemma {:induction false} AbortStays<T>(v: View, steps: seq<LadderStep>, items: seq<seq<Act<T>>>, port: bool, i: nat, j: nat)
    requires (forall k :: 0 <= k < |items| ==> |items[k]| == |steps|) && i < j < |items|
    requires Items(v, steps, items, port)[i].view.aborted
    ensures var p := Items(v, steps, items, port)[j];
            OutcomeOf(p) == Aborted && p.trace == [] && p.view.aborted
    decreases j
  {
    hide Item, Items;
    ItemAt(v, steps, items, port, j);
    var ps := Items(v, steps, items, port);
    if i < j - 1 {
      AbortStays(v, steps, items, port, i, j - 1);
    }
    AbortedAtOnce(ps[j - 1].view, steps, items[j], port);
  }

  /** Where an event of an item stands in the whole run. */
  lemma {:induction false} PlaceIn<T>(ps: seq<Progress<T>>, i: nat, m: nat) returns (at: nat)
    requires i < |ps| && m < |ps[i].trace|
    ensures at < |Whole(ps)| && Whole(ps)[at] == ps[i].trace[m]
    ensures at == |Whole(ps[..i])| + m
  {
    if i == 0 {
      at := m;
      assert ps[..0] == [];
    } else {
      var rest := PlaceIn(ps[1..], i - 1, m);
      at := |ps[0].trace| + rest;
      assert ps[..i][1..] == ps[1..][..i - 1] && ps[..i][0] == ps[0];
    }
  }

  lemma {:induction false} WholeGrows<T>(ps: seq<Progress<T>>, i: nat, j: nat)
    requires i < j <= |ps|
    ensures |Whole(ps[..i])| + |ps[i].trace| <= |Whole(ps[..j])|
  {
    if i == 0 {
      assert ps[..0] == [] && ps[..j][0] == ps[0];
    } else {
      WholeGrows(ps[1..], i - 1, j - 1);
      assert ps[..i][1..] == ps[1..][..i - 1] && ps[..j][1..] == ps[1..][..j - 1];
    }
  }

  /** An event that comes later in the run: later in its item, or in a later item. */
  predicate Later(i: nat, m: nat, j: nat, n: nat) {
    i < j || (i == j && m < n)
  }

  lemma OrderedEvents<T>(now: int, steps: seq<LadderStep>, items: seq<seq<Act<T>>>, port: bool, i: nat, m: nat, j: nat, n: nat)
    requires forall k :: 0 <= k < |items| ==> |items[k]| == |steps|
    requires var ps := Items(View(MAX_MODEL_CALLS_PER_RUN, now + RUN_DEADLINE_SECS, {}, false, false), steps, items, port);
             i < |items| && m < |ps[i].trace| && j < |items| && n < |ps[j].trace| && Later(i, m, j, n)
    ensures var ps := Items(View(MAX_MODEL_CALLS_PER_RUN, now + RUN_DEADLINE_SECS, {}, false, false), steps, items, port);
            MayFollow(ps[i].trace[m], ps[j].trace[n])
  {
    hide Items, MayFollow;
    var v := View(MAX_MODEL_CALLS_PER_RUN, now + RUN_DEADLINE_SECS, {}, false, false);
    var ps := Items(v, steps, items, port);
    RunAccounting(now, steps, items, port);
    var a := PlaceIn(ps, i, m);
    var b := PlaceIn(ps, j, n);
    if i < j {
      WholeGrows(ps, i, j);
    }
    assert MayFollow(Whole(ps)[a], Whole(ps)[b]);
  }

  /** Over any run, on the answers themselves. A call answered "busy", "rate limited"
      or "not ready" ends its item deferred, and no later item makes a call. A
      lost connection, a cancellation or an ending generation aborts its item and
      every later one, and nothing more is tried. An engine that is forbidden, has no
      provider or is misconfigured is never called again. Any other failure leaves
      the next step to be tried. */
  lemma FailureRules<T>(now: int, steps: seq<LadderStep>, items: seq<seq<Act<T>>>, port: bool, i: nat, m: nat, f: Failure)
    requires forall k :: 0 <= k < |items| ==> |items[k]| == |steps|
    requires var ps := Items(View(MAX_MODEL_CALLS_PER_RUN, now + RUN_DEADLINE_SECS, {}, false, false), steps, items, port);
             i < |items| && m < |ps[i].trace| && FailedBy(ps[i].trace[m], f)
    ensures var ps := Items(View(MAX_MODEL_CALLS_PER_RUN, now + RUN_DEADLINE_SECS, {}, false, false), steps, items, port);
            var e := ps[i].trace[m];
            && (f == Busy || f == RateLimited || f == NotReady ==>
                  && OutcomeOf(ps[i]) == Deferred && m == |ps[i].trace| - 1
                  && forall j, n :: i < j < |items| && 0 <= n < |ps[j].trace| ==> !IsCall(ps[j].trace[n]))
            && (f == ConnectionLost || f == Cancelled || f == GenerationEnding ==>
                  && OutcomeOf(ps[i]) == Aborted && m == |ps[i].trace| - 1
                  && forall j :: i < j < |items| ==> OutcomeOf(ps[j]) == Aborted && ps[j].trace == [])
            && (f == Forbidden || f == Unavailable(NoProvider) || f == Unavailable(BackendConfig) ==>
                  forall j, n :: i <= j < |items| && 0 <= n < |ps[j].trace| && Later(i, m, j, n) && IsCall(ps[j].trace[n]) ==>
                    ps[j].trace[n].step.engine != e.step.engine)
  {
    hide Item, Items, WellOrdered, Answers;
    var v := View(MAX_MODEL_CALLS_PER_RUN, now + RUN_DEADLINE_SECS, {}, false, false);
    var ps := Items(v, steps, items, port);
    ItemAt(v, steps, items, port, i);
    ItemAnswers(if i == 0 then v else ps[i - 1].view, steps, items[i], port);
    AnsweredBy(ps[i], m, f);
    if Ends(f) {
      forall j | i < j < |items| ensures OutcomeOf(ps[j]) == Aborted && ps[j].trace == [] {
        AbortStays(v, steps, items, port, i, j);
      }
    }
    if Busies(f) || ShutsOut(f) {
      forall j, n | i <= j < |items| && 0 <= n < |ps[j].trace| && Later(i, m, j, n) ensures MayFollow(ps[i].trace[m], ps[j].trace[n]) {
        OrderedEvents(now, steps, items, port, i, m, j, n);
      }
    }
  }

  lemma AnsweredBy<T>(p: Progress<T>, m: nat, f: Failure)
    requires Answers(p) && m < |p.trace| && FailedBy(p.trace[m], f)
    ensures Busies(f) ==> m == |p.trace| - 1 && OutcomeOf(p) == Deferred && p.view.modelsOff && !p.view.aborted
    ensures Ends(f) ==> m == |p.trace| - 1 && OutcomeOf(p) == Aborted && p.view.aborted
  {
  }

  /** After a busy answer each later item is decided by the decisive rule or left
      for a later run. */
  lemma BusyHoldsBack<T>(now: int, cap: Capability, remoteAllowed: bool, executiveEnabled: bool, items: seq<seq<Act<T>>>,
                         i: nat, m: nat, f: Failure, j: nat)
    requires forall k :: 0 <= k < |items| ==> |items[k]| == |Planned(cap, remoteAllowed, executiveEnabled, true)|
    requires var ps := Items(View(MAX_MODEL_CALLS_PER_RUN, now + RUN_DEADLINE_SECS, {}, false, false),
                             Planned(cap, remoteAllowed, executiveEnabled, true), items, true);
             i < j < |items| && m < |ps[i].trace| && FailedBy(ps[i].trace[m], f) && (f == Busy || f == RateLimited || f == NotReady)
    ensures var ps := Items(View(MAX_MODEL_CALLS_PER_RUN, now + RUN_DEADLINE_SECS, {}, false, false),
                            Planned(cap, remoteAllowed, executiveEnabled, true), items, true);
            HeldBack(ps[j])
  {
    hide Item, Items, Answers, HeldBack, Planned;
    var v, steps := View(MAX_MODEL_CALLS_PER_RUN, now + RUN_DEADLINE_SECS, {}, false, false), Planned(cap, remoteAllowed, executiveEnabled, true);
    var ps := Items(v, steps, items, true);
    ItemAt(v, steps, items, true, i);
    ItemAnswers(if i == 0 then v else ps[i - 1].view, steps, items[i], true);
    AnsweredBy(ps[i], m, f);
    StickyDefer(now, cap, remoteAllowed, executiveEnabled, items, i, j);
  }

  /** An item whose plan ends with the fallback rule is never stopped by a failure
      of the other kinds: something follows it, or the budget or deadline left the
      item for a later run. */
  lemma OthersFallThrough<T>(v: View, steps: seq<LadderStep>, acts: seq<Act<T>>, m: nat, f: Failure)
    requires |acts| == |steps| && steps != [] && steps[|steps| - 1] == ReflexFallback
    requires var p := Item(v, steps, acts, true); m < |p.trace| && FailedBy(p.trace[m], f) && !Busies(f) && !Ends(f)
    ensures var p := Item(v, steps, acts, true);
            m + 1 < |p.trace| || (OutcomeOf(p) == Deferred && p.view.modelsOff)
  {
    var p := Item(v, steps, acts, true);
    ItemInOrder(v, steps, acts);
    if v.aborted {
      AbortedAtOnce(v, steps, acts, true);
    } else if m + 1 == |p.trace| {
      LastEnds(Begin(v), steps, acts);
    }
  }

  /** How an item that has ended did so: by its last event, or before a call for
      want of budget, time or models. */
  lemma {:induction false} LastEnds<T>(p: Progress<T>, steps: seq<LadderStep>, acts: seq<Act<T>>)
    requires |acts| == |steps| && p.end.None?
    ensures var q := Climb(p, steps, acts, true);
            && p.trace <= q.trace
            && (q.end.Some? ==>
                  || (q.end == Some(Deferred) && q.view.modelsOff)
                  || (|q.trace| > |p.trace| && Stops(q.trace[|q.trace| - 1])))
            && (q.end.None? && steps != [] && steps[|steps| - 1] == ReflexFallback ==>
                  |q.trace| > |p.trace| && q.trace[|q.trace| - 1].Tried? && q.trace[|q.trace| - 1].step == ReflexFallback)
    decreases |steps|
  {
    if steps != [] {
      var q := Stepped(p, steps[0], acts[0], true);
      StepEnds(p, steps[0], acts[0]);
      if q.end.None? {
        hide Stepped;
        LastEnds(q, steps[1..], acts[1..]);
      } else {
        assert Climb(q, steps[1..], acts[1..], true) == q;
      }
    }
  }

  /** An event after which there is nothing left to try. */
  predicate Stops<T>(e: Event<T>) {
    e.Tried? && (e.step.Model? && e.act.answer.Err? ==> Busies(e.act.answer.error) || Ends(e.act.answer.error))
  }

  lemma StepEnds<T>(p: Progress<T>, step: LadderStep, act: Act<T>)
    requires p.end.None?
    ensures var q := Stepped(p, step, act, true);
            && p.trace <= q.trace
            && (q.end.Some? ==>
                  || (q.end == Some(Deferred) && q.view.modelsOff)
                  || (|q.trace| > |p.trace| && Stops(q.trace[|q.trace| - 1])))
            && (q.end.None? ==> |q.trace| == |p.trace| + 1)
            && (q.end.None? && step == ReflexFallback ==> q.trace[|p.trace|].Tried? && q.trace[|p.trace|].step == ReflexFallback)
  {
    hide KindStr;
  }

  // ------------------------------------------------------------------- usage

  function Spent(n: Option<nat>): nat {
    if n.Some? then n.value else 0
  }

  /** Usage is a sum: a row adds what it carries, and an answered call what its reply
      says; a failed call, a rule and an engine passed over add nothing. */
  lemma UsageAdds(recs: seq<Record>)
    ensures recs == [] ==> UsageOf(recs) == Usage(0, 0)
    ensures recs != [] ==>
              && UsageOf(recs).prompt == Spent(recs[0].prompt) + UsageOf(recs[1..]).prompt
              && UsageOf(recs).completion == Spent(recs[0].completion) + UsageOf(recs[1..]).completion
  {
    hide UsageOf;
    UsageIs(recs);
  }

  lemma UsageIs(recs: seq<Record>)
    ensures recs == [] ==> UsageOf(recs) == Usage(0, 0)
    ensures recs != [] ==> UsageOf(recs) == Plus(Usage(Count(recs[0].prompt), Count(recs[0].completion)), UsageOf(recs[1..]))
  {
    hide Plus, Count;
  }

  lemma ReceivedAdds<T>(trace: seq<Event<T>>)
    ensures trace == [] ==> Received(trace) == Usage(0, 0)
    ensures trace != [] ==>
              var e, rest := trace[0], Received(trace[1..]); var answered := e.Tried? && e.step.Model? && e.act.answer.Ok?;
              && Received(trace).prompt == (if answered then Spent(e.act.answer.value.prompt) else 0) + rest.prompt
              && Received(trace).completion == (if answered then Spent(e.act.answer.value.completion) else 0) + rest.completion
  {
  }
}
