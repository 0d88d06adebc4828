/** The engine ladder: which engines an item is tried on, what a failure does to
    the rest of the run, and what is recorded. */
module Ladder {
  import opened Prelude

  datatype Engine = Reflex | Local | Executive

  datatype Tier = LocalTier | Remote

  datatype Capability = Classify | Summarize | Propose

  datatype LadderStep = ReflexDecisive | Model(engine: Engine) | ReflexFallback

  datatype Cause = NoProvider | RequestRejected | BackendConfig | ResponseTooLarge

  datatype Failure =
    | Unavailable(cause: Cause)
    | Busy
    | RateLimited
    | NotReady
    | Timeout
    | Forbidden
    | BadRequest
    | OtherFailure
    | GenerationEnding
    | ConnectionLost
    | Cancelled

  datatype LadderAction = Degrade | Defer | Abort

  function ActionOf(f: Failure): LadderAction {
    match f
    case ConnectionLost => Abort
    case Cancelled => Abort
    case GenerationEnding => Abort
    case Busy => Defer
    case RateLimited => Defer
    case NotReady => Defer
    case _ => Degrade
  }

  predicate OpensCircuit(f: Failure) {
    f.Forbidden? || (f.Unavailable? && (f.cause.NoProvider? || f.cause.BackendConfig?))
  }

  datatype Reply = Reply(tier: Tier, prompt: Option<nat>, completion: Option<nat>)

  const UNDECIDED: string := "undecided"
  const NO_MATCH: string := "no_match"
  const PRIVACY_TRIPWIRE: string := "privacy_tripwire"

  function KindStr(f: Failure): string {
    match f
    case Unavailable(NoProvider) => "unavailable.no_provider"
    case Unavailable(RequestRejected) => "unavailable.request_rejected"
    case Unavailable(BackendConfig) => "unavailable.backend_config"
    case Unavailable(ResponseTooLarge) => "unavailable.response_too_large"
    case Busy => "busy"
    case RateLimited => "rate_limited"
    case NotReady => "not_ready"
    case Timeout => "timeout"
    case Forbidden => "forbidden"
    case BadRequest => "bad_request"
    case OtherFailure => "other"
    case GenerationEnding => "generation_ending"
    case ConnectionLost => "connection_lost"
    case Cancelled => "cancelled"
  }

  /** One row of the call history. */
  datatype Record = Record(
    engine: Engine, fallbackFrom: Option<Engine>, served: Option<Tier>, prompt: Option<nat>, completion: Option<nat>,
    ok: bool, errorKind: Option<string>)

  /** What the world does at one step: the clock, the model's answer, the switch
      as re-read (`None` if it cannot be read), the parser's and the rule's say. */
  datatype Act<T> = Act(at: int, answer: Result<Reply, Failure>, switchOn: Option<bool>, parsed: Result<T, string>, rule: Option<T>)

  datatype Outcome<T> =
    | Produced(value: T, engine: Engine, rec: Record)
    | Nothing(deterministic: bool)
    | Deferred
    | Aborted

  const MAX_MODEL_CALLS_PER_RUN: nat := 20
  const RUN_DEADLINE_SECS: nat := 600

  /** Executive only with a port, remote access and the user's switch; Local with
      a port; a decisive rule first for classification. */
  method Plan(cap: Capability, remoteAllowed: bool, executiveEnabled: bool, port: bool) returns (steps: seq<LadderStep>)
    ensures steps == Planned(cap, remoteAllowed, executiveEnabled, port)
  {
    steps := [];
    if cap == Classify {
      steps := steps + [ReflexDecisive];
    }
    if port {
      if remoteAllowed && executiveEnabled {
        steps := steps + [Model(Executive)];
      }
      steps := steps + [Model(Local)];
    }
    steps := steps + [ReflexFallback];
  }

  function Planned(cap: Capability, remoteAllowed: bool, executiveEnabled: bool, port: bool): seq<LadderStep> {
    (if cap == Classify then [ReflexDecisive] else [])
    + (if port && remoteAllowed && executiveEnabled then [Model(Executive)] else [])
    + (if port then [Model(Local)] else [])
    + [ReflexFallback]
  }

  // ---------------------------------------------------- the step, as a relation

  /** The run-wide state an item starts from and leaves behind. */
  datatype View = View(callsLeft: nat, deadline: int, skip: set<Engine>, modelsOff: bool, aborted: bool)

  /** What happened at a step: an engine whose circuit is open was passed over, or
      something was tried and a record made of it. */
  datatype Event<T> = Skipped(engine: Engine) | Tried(step: LadderStep, act: Act<T>, rec: Record)

  function Tripwire(served: Tier, switchOn: Option<bool>): bool {
    served == Remote && switchOn != Some(true)
  }

  function ModelRecord<T>(engine: Engine, from: Option<Engine>, act: Act<T>): Record {
    match act.answer
    case Err(f) => Record(engine, from, None, None, None, false, Some(KindStr(f)))
    case Ok(reply) =>
      var base := Record(engine, from, Some(reply.tier), reply.prompt, reply.completion, false, None);
      if Tripwire(reply.tier, act.switchOn) then base.(errorKind := Some(PRIVACY_TRIPWIRE))
      else if act.parsed.Ok? then base.(ok := true)
      else base.(errorKind := Some(act.parsed.error))
  }

  function RuleRecord<T>(from: Option<Engine>, act: Act<T>, missing: string): Record {
    Record(Reflex, from, None, None, None, act.rule.Some?, if act.rule.Some? then None else Some(missing))
  }

  predicate NoMoreModels(v: View, now: int) {
    v.modelsOff || v.callsLeft == 0 || now >= v.deadline
  }

  /** How far an item got: its trace, and either what to carry to the next step
      or the outcome it ended with. */
  datatype Progress<T> = Progress(view: View, trace: seq<Event<T>>, failedFrom: Option<Engine>, deterministic: bool, end: Option<Outcome<T>>)

  function ModelStep<T>(p: Progress<T>, engine: Engine, act: Act<T>): Progress<T> {
    if engine in p.view.skip then p.(trace := p.trace + [Skipped(engine)], failedFrom := Some(engine))
    else if NoMoreModels(p.view, act.at) then p.(view := p.view.(modelsOff := true), end := Some(Deferred))
    else
      var rec := ModelRecord(engine, p.failedFrom, act);
      var q := p.(view := p.view.(callsLeft := p.view.callsLeft - 1), trace := p.trace + [Tried(Model(engine), act, rec)]);
      match act.answer
      case Err(f) =>
        (match ActionOf(f)
         case Abort => q.(view := q.view.(aborted := true), end := Some(Aborted))
         case Defer => q.(view := q.view.(modelsOff := true), end := Some(Deferred))
         case Degrade =>
           q.(view := if OpensCircuit(f) then q.view.(skip := q.view.skip + {engine}) else q.view, failedFrom := Some(engine)))
      case Ok(reply) =>
        if Tripwire(reply.tier, act.switchOn) then q.(failedFrom := Some(engine))
        else if act.parsed.Ok? then q.(end := Some(Produced(act.parsed.value, engine, rec)))
        else q.(failedFrom := Some(engine), deterministic := true)
  }

  function RuleStep<T>(p: Progress<T>, step: LadderStep, from: Option<Engine>, missing: string, act: Act<T>): Progress<T> {
    var rec := RuleRecord(from, act, missing);
    var q := p.(trace := p.trace + [Tried(step, act, rec)]);
    if act.rule.Some? then q.(end := Some(Produced(act.rule.value, Reflex, rec))) else q
  }

  function Stepped<T>(p: Progress<T>, step: LadderStep, act: Act<T>, port: bool): Progress<T> {
    match step
    case ReflexDecisive => RuleStep(p, step, None, UNDECIDED, act)
    case ReflexFallback => RuleStep(p, step, p.failedFrom, NO_MATCH, act)
    case Model(engine) => if port then ModelStep(p, engine, act) else p
  }

  function Climb<T>(p: Progress<T>, steps: seq<LadderStep>, acts: seq<Act<T>>, port: bool): Progress<T>
    requires |acts| == |steps|
    decreases |steps|
  {
    if steps == [] || p.end.Some? then p else Climb(Stepped(p, steps[0], acts[0], port), steps[1..], acts[1..], port)
  }

  function Begin<T>(v: View): Progress<T> {
    Progress(v, [], None, false, if v.aborted then Some(Aborted) else None)
  }

  function OutcomeOf<T>(p: Progress<T>): Outcome<T> {
    if p.end.Some? then p.end.value else Nothing(p.deterministic)
  }

  /** One item, start to end. */
  function Item<T>(v: View, steps: seq<LadderStep>, acts: seq<Act<T>>, port: bool): Progress<T>
    requires |acts| == |steps|
  {
    Climb(Begin(v), steps, acts, port)
  }

  /** The records of a trace, in order. */
  function Records<T>(trace: seq<Event<T>>): seq<Record> {
    if trace == [] then []
    else (if trace[0].Tried? then [trace[0].rec] else []) + Records(trace[1..])
  }

  /** The engines called in a trace, in order. */
  function Calls<T>(trace: seq<Event<T>>): seq<Engine> {
    if trace == [] then []
    else (if trace[0].Tried? && trace[0].step.Model? then [trace[0].step.engine] else []) + Calls(trace[1..])
  }

  function Unproductive(recs: seq<Record>): seq<Record> {
    if recs == [] then [] else (if recs[0].ok then [] else [recs[0]]) + Unproductive(recs[1..])
  }

  lemma {:induction false} RecordsSnoc<T>(trace: seq<Event<T>>, e: Event<T>)
    ensures Records(trace + [e]) == Records(trace) + (if e.Tried? then [e.rec] else [])
    ensures Calls(trace + [e]) == Calls(trace) + (if e.Tried? && e.step.Model? then [e.step.engine] else [])
  {
    if trace == [] {
      assert trace + [e] == [e] && [e][1..] == [];
    } else {
      assert (trace + [e])[1..] == trace[1..] + [e];
      RecordsSnoc(trace[1..], e);
    }
  }

  lemma {:induction false} UnproductiveSnoc(recs: seq<Record>, r: Record)
    ensures Unproductive(recs + [r]) == Unproductive(recs) + (if r.ok then [] else [r])
  {
    if recs == [] {
      assert recs + [r] == [r] && [r][1..] == [];
    } else {
      assert (recs + [r])[1..] == recs[1..] + [r] && (recs + [r])[0] == recs[0];
      UnproductiveSnoc(recs[1..], r);
      var first: seq<Record> := if recs[0].ok then [] else [recs[0]];
      assert Unproductive(recs + [r]) == first + Unproductive(recs[1..] + [r]);
    }
  }

  // ------------------------------------------------------------- the run state

  class RunState {
    var callsLeft: nat
    const deadline: int
    var skip: set<Engine>
    var modelsOff: bool
    var aborted: bool

    constructor (now: int)
      ensures Now() == View(20, now + 600, {}, false, false)
    {
      callsLeft := MAX_MODEL_CALLS_PER_RUN;
      deadline := now + RUN_DEADLINE_SECS;
      skip := {};
      modelsOff := false;
      aborted := false;
    }

    function Now(): View
      reads this
    {
      View(callsLeft, deadline, skip, modelsOff, aborted)
    }

    /** One call of the model port and what its answer means for the run. */
    method CallModel<T>(engine: Engine, act: Act<T>, from: Option<Engine>, ghost p: Progress<T>)
      returns (end: Option<Outcome<T>>, rec: Record, rejected: bool, ghost q: Progress<T>)
      requires p.view == Now() && p.failedFrom == from && p.end.None?
      requires engine !in skip && !NoMoreModels(Now(), act.at)
      modifies this
      ensures q == ModelStep(p, engine, act) && Now() == q.view && end == q.end
      ensures rec == ModelRecord(engine, from, act) && q.trace == p.trace + [Tried(Model(engine), act, rec)]
      ensures end.None? ==> !rec.ok && q.failedFrom == Some(engine) && q.deterministic == (p.deterministic || rejected)
      ensures end.Some? ==> (end.value.Produced? <==> rec.ok)
    {
      hide KindStr;
      q, rejected := ModelStep(p, engine, act), false;
      callsLeft := callsLeft - 1;
      rec := ModelRecord(engine, from, act);
      match act.answer {
        case Ok(reply) =>
          if reply.tier == Remote {
            var switchOn := act.switchOn.Some? && act.switchOn.value;
            if !switchOn {
              return None, rec, false, q;
            }
          }
          if act.parsed.Ok? {
            return Some(Produced(act.parsed.value, engine, rec)), rec, false, q;
          }
          return None, rec, true, q;
        case Err(f) =>
          match ActionOf(f) {
            case Abort =>
              aborted := true;
              return Some(Aborted), rec, false, q;
            case Defer =>
              modelsOff := true;
              return Some(Deferred), rec, false, q;
            case Degrade =>
              if OpensCircuit(f) {
                skip := skip + {engine};
              }
              return None, rec, false, q;
          }
      }
    }

    /** One item down the ladder. `written` is what went to the sink, `calls` the
        engines the model port was called on: each call has one record, written
        unless it produced, and returned if it did. */
    method RunItem<T>(steps: seq<LadderStep>, acts: seq<Act<T>>, port: bool)
      returns (out: Outcome<T>, written: seq<Record>, calls: seq<Engine>, ghost done: Progress<T>)
      requires |acts| == |steps|
      modifies this
      ensures done == Item(old(Now()), steps, acts, port)
      ensures Now() == done.view && out == OutcomeOf(done)
      ensures calls == Calls(done.trace)
      ensures written == Unproductive(Records(done.trace))
    {
      written, calls := [], [];
      done := Begin(Now());
      if aborted {
        return Aborted, written, calls, done;
      }
      var failedFrom: Option<Engine> := None;
      var deterministic := false;
      var i := 0;
      assert steps[0..] == steps && acts[0..] == acts;
      hide Climb, Records, Calls, Unproductive, ModelRecord, ModelStep;
      while i < |steps|
        invariant 0 <= i <= |steps|
        invariant done.end.None? && Climb(done, steps[i..], acts[i..], port) == Item(old(Now()), steps, acts, port)
        invariant Now() == done.view && failedFrom == done.failedFrom && deterministic == done.deterministic
        invariant calls == Calls(done.trace) && written == Unproductive(Records(done.trace))
      {
        ghost var before := done;
        var step, act := steps[i], acts[i];
        done := Stepped(before, step, act, port);
        ClimbOnce(before, steps, acts, i, port);
        i := i + 1;
        match step {
          case ReflexDecisive =>
            var rec := RuleRecord(None, act, UNDECIDED);
            Noted(before.trace, Tried(step, act, rec));
            if act.rule.Some? {
              return Produced(act.rule.value, Reflex, rec), written, calls, done;
            }
            written := written + [rec];
          case ReflexFallback =>
            var rec := RuleRecord(failedFrom, act, NO_MATCH);
            Noted(before.trace, Tried(step, act, rec));
            if act.rule.Some? {
              return Produced(act.rule.value, Reflex, rec), written, calls, done;
            }
            written := written + [rec];
          case Model(engine) =>
            if !port {
              continue;
            }
            PassedOver(before, engine, act);
            if engine in skip {
              Noted(before.trace, Skipped(engine));
              failedFrom := Some(engine);
              continue;
            }
            if modelsOff || callsLeft == 0 || act.at >= deadline {
              modelsOff := true;
              return Deferred, written, calls, done;
            }
            var end, rec, rejected;
            end, rec, rejected, done := CallModel(engine, act, failedFrom, before);
            calls := calls + [engine];
            Noted(before.trace, Tried(step, act, rec));
            if !rec.ok {
              written := written + [rec];
            }
            if end.Some? {
              return end.value, written, calls, done;
            }
            failedFrom, deterministic := Some(engine), deterministic || rejected;
        }
      }
      return Nothing(deterministic), written, calls, done;
    }
  }

  lemma PassedOver<T>(p: Progress<T>, engine: Engine, act: Act<T>)
    ensures engine in p.view.skip ==>
              ModelStep(p, engine, act) == p.(trace := p.trace + [Skipped(engine)], failedFrom := Some(engine))
    ensures engine !in p.view.skip && NoMoreModels(p.view, act.at) ==>
              ModelStep(p, engine, act) == p.(view := p.view.(modelsOff := true), end := Some(Deferred))
  {
  }

  lemma ClimbOnce<T>(p: Progress<T>, steps: seq<LadderStep>, acts: seq<Act<T>>, i: nat, port: bool)
    requires |acts| == |steps| && i < |steps| && p.end.None?
    ensures Climb(p, steps[i..], acts[i..], port) == Climb(Stepped(p, steps[i], acts[i], port), steps[i + 1..], acts[i + 1..], port)
    ensures var q := Stepped(p, steps[i], acts[i], port);
            q.end.Some? ==> Climb(p, steps[i..], acts[i..], port) == q
  {
    assert steps[i..][1..] == steps[i + 1..] && acts[i..][1..] == acts[i + 1..];
    hide Stepped;
  }

  lemma Noted<T>(trace: seq<Event<T>>, e: Event<T>)
    ensures Calls(trace + [e]) == Calls(trace) + (if e.Tried? && e.step.Model? then [e.step.engine] else [])
    ensures Unproductive(Records(trace + [e])) ==
              Unproductive(Records(trace)) + (if e.Tried? && !e.rec.ok then [e.rec] else [])
  {
    RecordsSnoc(trace, e);
    if e.Tried? {
      UnproductiveSnoc(Records(trace), e.rec);
    }
    assert Records(trace) + [] == Records(trace) && Unproductive(Records(trace)) + [] == Unproductive(Records(trace));
  }
}
