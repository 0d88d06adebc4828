/** One run of the weekly review: whether the body may be rewritten at all, what
    it is rewritten to, and what the gate makes of it. */
module Summarizing {
  import opened Prelude
  import opened Cron
  import opened Facts
  import Narrative
  import opened Gate
  import opened Ladder
  import opened LadderTheorems
  import P = Proposing

  const FACTS_HEADING_WORD: string := "本周数字"
  const NARRATIVE_HEADING: string := "\n## 叙述\n\n"
  const BAD_OUTPUT: string := "bad_output"

  // -------------------------------------------------------------- the bodies

  function FactLine(f: Fact): string {
    "- " + f.caption + [COLON] + f.value + "\n"
  }

  function FactLines(fs: seq<Fact>): string {
    if fs == [] then "" else FactLine(fs[0]) + FactLines(fs[1..])
  }

  function FactsBlock(week: string, fs: seq<Fact>): string {
    "## " + week + " " + FACTS_HEADING_WORD + "\n\n" + FactLines(fs)
  }

  method RenderFacts(week: string, fs: seq<Fact>) returns (s: string)
    ensures s == FactsBlock(week, fs)
  {
    s := "## " + week + " " + FACTS_HEADING_WORD + "\n\n";
    for i := 0 to |fs|
      invariant s + FactLines(fs[i..]) == FactsBlock(week, fs)
    {
      hide FactLine;
      assert fs[i..][0] == fs[i] && fs[i..][1..] == fs[i + 1..];
      s := s + FactLine(fs[i]);
    }
    assert s + "" == s;
  }

  function ComposeBody(facts: string, narrative: Option<string>): string {
    match narrative
    case None => facts
    case Some(n) => facts + NARRATIVE_HEADING + n + "\n"
  }

  /** Empty, or one of the program's own renderings, up to trailing whitespace. */
  predicate IsProgramOnly(body: string, candidates: seq<string>) {
    TrimEnd(body) == "" || exists k :: 0 <= k < |candidates| && TrimEnd(candidates[k]) == TrimEnd(body)
  }

  // ------------------------------------------------------------------ the run

  /** What the world does at one step; the narrative if the reply was well-formed JSON. */
  datatype Turn = Turn(at: int, answer: Result<Reply, Failure>, switchOn: Option<bool>, narrative: Option<string>)

  datatype ItemResult = Proposed | NothingToDo | Left | Rejected | Cut | LeftAlone

  /** What the run makes of a reply. */
  function ParsedNarrative(narrative: Option<string>, fs: seq<Fact>, titles: seq<string>, numeric: char -> bool)
    : Result<Option<string>, string>
  {
    if narrative.None? then Err(BAD_OUTPUT)
    else
      match Narrative.Filled(narrative.value, fs, titles, numeric)
      case Err(_) => Err(BAD_OUTPUT)
      case Ok(text) => Ok(Some(text))
  }

  method ParseSummarizeReply(narrative: Option<string>, fs: seq<Fact>, titles: seq<string>, numeric: char -> bool)
    returns (r: Result<Option<string>, string>)
    ensures r == ParsedNarrative(narrative, fs, titles, numeric)
  {
    if narrative.None? {
      return Err(BAD_OUTPUT);
    }
    var filled := Narrative.FillNarrative(narrative.value, fs, titles, numeric);
    if filled.Err? {
      return Err(BAD_OUTPUT);
    }
    return Ok(Some(filled.value));
  }

  /** A step as the ladder sees it: the clock, the answer and the switch as the
      world has them, the parser's say on this very reply, and the rule's, which
      is always a body without a narrative. */
  function ActOf(turn: Turn, fs: seq<Fact>, titles: seq<string>, numeric: char -> bool): Act<Option<string>> {
    Act(turn.at, turn.answer, turn.switchOn, ParsedNarrative(turn.narrative, fs, titles, numeric), Some(None))
  }

  function ActsOf(turns: seq<Turn>, fs: seq<Fact>, titles: seq<string>, numeric: char -> bool): (acts: seq<Act<Option<string>>>)
    ensures |acts| == |turns|
  {
    seq(|turns|, i requires 0 <= i < |turns| => ActOf(turns[i], fs, titles, numeric))
  }

  lemma ActsAre(acts: seq<Act<Option<string>>>, turns: seq<Turn>, fs: seq<Fact>, titles: seq<string>, numeric: char -> bool)
    requires |acts| == |turns| && forall k :: 0 <= k < |acts| ==> acts[k] == ActOf(turns[k], fs, titles, numeric)
    ensures acts == ActsOf(turns, fs, titles, numeric)
  {
    hide ActOf;
  }

  lemma ActIs(turn: Turn, fs: seq<Fact>, titles: seq<string>, numeric: char -> bool)
    ensures ActOf(turn, fs, titles, numeric)
              == Act(turn.at, turn.answer, turn.switchOn, ParsedNarrative(turn.narrative, fs, titles, numeric), Some(None))
  {
    hide ParsedNarrative;
  }

  method ReadTurns(turns: seq<Turn>, fs: seq<Fact>, titles: seq<string>, numeric: char -> bool)
    returns (acts: seq<Act<Option<string>>>)
    ensures acts == ActsOf(turns, fs, titles, numeric)
  {
    hide *;
    acts := [];
    for i := 0 to |turns|
      invariant |acts| == i && forall k :: 0 <= k < i ==> acts[k] == ActOf(turns[k], fs, titles, numeric)
    {
      var parsed := ParseSummarizeReply(turns[i].narrative, fs, titles, numeric);
      ActIs(turns[i], fs, titles, numeric);
      acts := acts + [Act(turns[i].at, turns[i].answer, turns[i].switchOn, parsed, Some(None))];
    }
    ActsAre(acts, turns, fs, titles, numeric);
  }

  /** No narrative, or the filled form of what one of the replies said. */
  predicate SaidBy(value: Option<string>, turns: seq<Turn>, fs: seq<Fact>, titles: seq<string>, numeric: char -> bool) {
    value.Some? ==>
      exists k :: 0 <= k < |turns| && turns[k].narrative.Some?
                  && Narrative.Filled(turns[k].narrative.value, fs, titles, numeric) == Ok(value.value)
  }

  lemma ProducedSaid(v: View, steps: seq<LadderStep>, turns: seq<Turn>, port: bool,
                     fs: seq<Fact>, titles: seq<string>, numeric: char -> bool)
    requires |turns| == |steps|
    ensures var out := OutcomeOf(Item(v, steps, ActsOf(turns, fs, titles, numeric), port));
            out.Produced? ==> SaidBy(out.value, turns, fs, titles, numeric)
  {
    hide Item, OutcomeOf;
    var acts := ActsOf(turns, fs, titles, numeric);
    if OutcomeOf(Item(v, steps, acts, port)).Produced? {
      var k := P.ProducedHere(v, steps, acts, port);
    }
  }

  function FactsOf(draft: Draft): string {
    FactsBlock(draft.week, Keyed(Entries(draft)))
  }

  predicate Rewritable(body: string, draft: Draft, auto: string) {
    IsProgramOnly(body, [FactsOf(draft), auto])
  }

  /** A rewrite is due exactly if the item produced something whose body is not the
      one already there. */
  function Submission(out: Outcome<Option<string>>, review: Id, body: string, facts: string, digest: string -> string): Option<Op> {
    if out.Produced? && digest(ComposeBody(facts, out.value)) != digest(body) then
      Some(DraftReviewBody(review, digest(body), ComposeBody(facts, out.value)))
    else None
  }

  function ResultOf(out: Outcome<Option<string>>, submitted: bool, fate: P.Fate): ItemResult {
    match out
    case Produced(_, _, _) => if !submitted then NothingToDo else if fate.Taken? then Proposed else Rejected
    case Nothing(_) => NothingToDo
    case Deferred => Left
    case Aborted => Cut
  }

  /** The run: what became of it, the rows recorded, and the operation submitted.
      A body a human has touched is left alone before anything starts. */
  method RunSummarize(st: RunState, review: Id, body: string, draft: Draft, auto: string, titles: seq<string>,
                      steps: seq<LadderStep>, turns: seq<Turn>, port: bool, fate: P.Fate,
                      numeric: char -> bool, digest: string -> string)
    returns (result: ItemResult, rows: seq<Record>, submitted: Option<Op>, ghost done: Progress<Option<string>>)
    requires |turns| == |steps| && forall k :: 0 <= k < |steps| ==> steps[k] != Model(Reflex)
    modifies st
    ensures !Rewritable(body, draft, auto) ==>
              result == LeftAlone && rows == [] && submitted == None && done == Begin(old(st.Now())) && st.Now() == old(st.Now())
    ensures Rewritable(body, draft, auto) ==>
              && done == Item(old(st.Now()), steps, ActsOf(turns, Keyed(Entries(draft)), titles, numeric), port)
              && st.Now() == done.view
              && submitted == Submission(OutcomeOf(done), review, body, FactsOf(draft), digest)
              && result == ResultOf(OutcomeOf(done), submitted.Some?, fate)
              && rows == Unproductive(Records(done.trace)) + LastRow(OutcomeOf(done), submitted.Some?, fate)
    ensures submitted.Some? ==>
              OutcomeOf(done).Produced? && SaidBy(OutcomeOf(done).value, turns, Keyed(Entries(draft)), titles, numeric)
              && Rewrites(submitted.value, review, body, FactsOf(draft), OutcomeOf(done).value, digest)
    ensures UsageOf(rows) == Received(done.trace)
  {
    hide IsProgramOnly, Entries, Keyed, FactsBlock, SaidBy, ComposeBody, UsageOf, Received, Item, Records, Unproductive, ActsOf, P.Settled;
    var fs := BuildFacts(draft);
    var facts := RenderFacts(draft.week, fs);
    rows, submitted, done := [], None, Begin(st.Now());
    NoUsage(st.Now());
    if !IsProgramOnly(body, [facts, auto]) {
      return LeftAlone, rows, submitted, done;
    }
    var acts := ReadTurns(turns, fs, titles, numeric);
    ghost var v := st.Now();
    var out, written, calls;
    out, written, calls, done := st.RunItem(steps, acts, port);
    P.ItemRows(v, steps, acts, port);
    rows := written;
    match out {
      case Nothing(_) => return NothingToDo, rows, submitted, done;
      case Deferred => return Left, rows, submitted, done;
      case Aborted => return Cut, rows, submitted, done;
      case Produced(value, engine, rec) =>
        ProducedSaid(v, steps, turns, port, fs, titles, numeric);
        var rewritten := ComposeBody(facts, value);
        P.UsageConcat(written, [rec]);
        if digest(rewritten) == digest(body) {
          return NothingToDo, rows + [rec], submitted, done;
        }
        submitted := Some(DraftReviewBody(review, digest(body), rewritten));
        var row := P.Settled(rec, fate);
        P.UsageConcat(written, [row]);
        SameUsage(rec, fate);
        return if fate.Taken? then Proposed else Rejected, rows + [row], submitted, done;
    }
  }

  /** The row of what was produced, if anything was. */
  function LastRow(out: Outcome<Option<string>>, submitted: bool, fate: P.Fate): seq<Record> {
    if !out.Produced? then [] else if submitted then [P.Settled(out.rec, fate)] else [out.rec]
  }

  lemma NoUsage(v: View)
    ensures UsageOf([]) == Usage(0, 0) && Received(Begin<Option<string>>(v).trace) == Usage(0, 0)
  {
  }

  lemma SameUsage(rec: Record, fate: P.Fate)
    ensures UsageOf([P.Settled(rec, fate)]) == UsageOf([rec])
  {
    hide UsageOf;
    P.UsageOfOne(rec);
    P.UsageOfOne(P.Settled(rec, fate));
  }

  /** The operation that replaces `body` by the composed one, if that changes it. */
  predicate Rewrites(op: Op, review: Id, body: string, facts: string, value: Option<string>, digest: string -> string) {
    op == DraftReviewBody(review, digest(body), ComposeBody(facts, value)) && digest(ComposeBody(facts, value)) != digest(body)
  }

  // --------------------------------------------------------------- theorems

  lemma {:induction false} TrimEndKeeps(s: string, i: nat)
    requires i < |s| && !IsWhitespace(s[i])
    ensures |TrimEnd(s)| >= i + 1 && TrimEnd(s) <= s
    decreases |s|
  {
    var last := |s| - 1;
    if IsWhitespace(s[last]) {
      TrimEndKeeps(s[..last], i);
    }
  }

  lemma {:induction false} TrimEndShrinks(s: string)
    ensures |TrimEnd(s)| <= |s|
    decreases |s|
  {
    if s != "" && IsWhitespace(s[|s| - 1]) {
      TrimEndShrinks(s[..|s| - 1]);
    }
  }

  lemma NotBlank(s: string)
    requires s != "" && !IsWhitespace(s[0])
    ensures Trim(s) != ""
  {
    TrimEndKeeps(s, 0);
  }

  lemma BodiesStart(week: string, fs: seq<Fact>, value: Option<string>)
    ensures ComposeBody(FactsBlock(week, fs), value) != "" && ComposeBody(FactsBlock(week, fs), value)[0] == '#'
  {
    hide FactLines;
  }

  /** The gate's answer to a submitted rewrite of an unchanged draft is yes exactly
      if the new body fits the size limit. */
  lemma RewritePasses(op: Op, review: Id, body: string, week: string, fs: seq<Fact>, value: Option<string>, s: Snapshot, t: Terms)
    requires Rewrites(op, review, body, FactsBlock(week, fs), value, t.digest) && IsLowerHex(t.digest(body))
    requires review in s.reviews && s.reviews[review] == ReviewSnap(true, t.digest(body))
    ensures Validated([op], s, t).Ok? <==> Utf8Len(ComposeBody(FactsBlock(week, fs), value)) <= MAX_REVIEW_BODY_BYTES
  {
    BodiesStart(week, fs, value);
    NotBlank(ComposeBody(FactsBlock(week, fs), value));
    hide Trim, Utf8Len, IsLowerHex, ComposeBody, FactsBlock;
    var fits := Check(op, s, t).Ok?;
    assert fits <==> Utf8Len(ComposeBody(FactsBlock(week, fs), value)) <= MAX_REVIEW_BODY_BYTES;
    hide Check, Effect;
    assert [op][1..] == [];
    if fits {
      assert InTurn([], Effect(op, s, t), t).Ok?;
    }
  }

  /** A facts-only body is a fixed point: rewritable, but only a narrative can
      change it. */
  lemma FactsOnlyIsFixed(op: Op, review: Id, facts: string, auto: string, value: Option<string>, digest: string -> string)
    ensures IsProgramOnly(facts, [facts, auto])
    ensures Rewrites(op, review, facts, facts, value, digest) ==> value.Some?
  {
    assert TrimEnd([facts, auto][0]) == TrimEnd(facts);
  }

  lemma NarrativeShows(facts: string, n: string)
    ensures |TrimEnd(ComposeBody(facts, Some(n)))| > |facts|
  {
    var body, at := ComposeBody(facts, Some(n)), |facts| + 1;
    assert NARRATIVE_HEADING[1] == '#';
    assert body == facts + (NARRATIVE_HEADING + n + "\n");
    assert body[at] == (NARRATIVE_HEADING + n + "\n")[1] == '#';
    TrimEndKeeps(body, at);
  }

  /** Once a narrative is in, no later run over the same numbers touches the body,
      unless it reads exactly like the automatic draft. */
  lemma NarrativeIsKept(facts: string, auto: string, n: string)
    ensures IsProgramOnly(ComposeBody(facts, Some(n)), [facts, auto]) <==> TrimEnd(auto) == TrimEnd(ComposeBody(facts, Some(n)))
  {
    NarrativeShows(facts, n);
    TrimEndShrinks(facts);
    var body, cs := ComposeBody(facts, Some(n)), [facts, auto];
    hide ComposeBody, TrimEnd;
    if TrimEnd(auto) == TrimEnd(body) {
      assert TrimEnd(cs[1]) == TrimEnd(body);
    }
  }
}
