/** What a successful narrative can contain, for any model output at all. */
module NarrativeSafety {
  import opened Text
  import opened Facts
  import opened Narrative

  // ------------------------------------------- flattening, atom by atom

  /** A span's text starts with a bracket and holds nothing flattening would touch. */
  predicate TokOk(t: Tok) {
    t.Unit? ==> AllUnitInner(t.fact.caption) && AllUnitInner(t.fact.value)
  }

  ghost predicate ToksOk(ts: seq<Tok>) {
    forall i :: 0 <= i < |ts| ==> TokOk(ts[i])
  }

  function LineToks(ts: seq<Tok>): (ls: seq<seq<Tok>>)
    ensures ls != []
  {
    if ts == [] then [[]]
    else
      var rest := LineToks(ts[1..]);
      if ts[0] == Ch('\n') then [[]] + rest else [[ts[0]] + rest[0]] + rest[1..]
  }

  function DropLeadToks(l: seq<Tok>): seq<Tok> {
    if l != [] && l[0].Ch? && Droppable(l[0].c) then DropLeadToks(l[1..]) else l
  }

  function NeutralTok(t: Tok): Tok {
    if t.Ch? then Ch(Neutral(t.c)) else t
  }

  function NeutralToks(l: seq<Tok>): seq<Tok> {
    seq(|l|, i requires 0 <= i < |l| => NeutralTok(l[i]))
  }

  function PlainToks(l: seq<Tok>): seq<Tok> {
    NeutralToks(DropLeadToks(l))
  }

  function ParagraphToks(ls: seq<seq<Tok>>): seq<seq<Tok>> {
    if ls == [] then []
    else (if PlainToks(ls[0]) == [] then [] else [PlainToks(ls[0])]) + ParagraphToks(ls[1..])
  }

  function JoinToks(ps: seq<seq<Tok>>): seq<Tok> {
    if ps == [] then [] else if |ps| == 1 then ps[0] else ps[0] + [Ch('\n'), Ch('\n')] + JoinToks(ps[1..])
  }

  function FlatToks(ts: seq<Tok>): seq<Tok> {
    JoinToks(ParagraphToks(LineToks(ts)))
  }

  function Texts(ls: seq<seq<Tok>>): seq<string> {
    seq(|ls|, i requires 0 <= i < |ls| => TextOf(ls[i]))
  }

  predicate Quiet(s: string) {
    forall i :: 0 <= i < |s| ==> s[i] !in ['<', '&', '\n']
  }

  lemma SpanText(t: Tok)
    requires TokOk(t) && !t.Ch?
    ensures var s := TokText(t);
            && |s| >= 2 && Quiet(s)
            && s[0] == (if t.Unit? then OPEN_UNIT else OPEN_TITLE)
            && s[|s| - 1] == (if t.Unit? then CLOSE_UNIT else CLOSE_TITLE)
            && (forall i :: 0 < i < |s| - 1 ==> s[i] != OPEN_UNIT && s[i] != CLOSE_UNIT)
  {
    if t.Title? {
      SanitizedIsInert(t.title);
      var s, inner := TokText(t), Sanitized(t.title);
      forall i | 0 < i < |s| - 1 ensures Inert(s[i]) {
        assert s[i] == inner[i - 1];
      }
    }
  }

  predicate OneLine(s: string) {
    forall i :: 0 <= i < |s| ==> s[i] != '\n'
  }

  lemma {:induction false} LinesPrepend(a: string, b: string)
    requires OneLine(a)
    ensures Lines(a + b) == [a + Lines(b)[0]] + Lines(b)[1..]
  {
    if a == "" {
      assert a + b == b && a + Lines(b)[0] == Lines(b)[0];
    } else {
      assert (a + b)[1..] == a[1..] + b;
      assert forall i :: 0 <= i < |a| - 1 ==> a[1..][i] == a[i + 1];
      LinesPrepend(a[1..], b);
      assert [a[0]] + (a[1..] + Lines(b)[0]) == a + Lines(b)[0];
    }
  }

  lemma TextsCons(l: seq<Tok>, ls: seq<seq<Tok>>)
    ensures Texts([l] + ls) == [TextOf(l)] + Texts(ls)
  {
  }

  lemma TextsTail(ls: seq<seq<Tok>>)
    requires ls != []
    ensures Texts(ls)[0] == TextOf(ls[0]) && Texts(ls)[1..] == Texts(ls[1..])
  {
  }

  lemma {:induction false} LinesOfToks(ts: seq<Tok>)
    requires ToksOk(ts)
    ensures Lines(TextOf(ts)) == Texts(LineToks(ts))
  {
    if ts == [] {
      assert Texts(LineToks(ts)) == [""];
    } else {
      LinesOfToks(ts[1..]);
      LinesOfTok(ts[0], ts[1..]);
      assert [ts[0]] + ts[1..] == ts;
    }
  }

  lemma LinesOfTok(t: Tok, ts: seq<Tok>)
    requires TokOk(t) && Lines(TextOf(ts)) == Texts(LineToks(ts))
    ensures Lines(TextOf([t] + ts)) == Texts(LineToks([t] + ts))
  {
    var rest := LineToks(ts);
    HeadText(t, ts);
    assert ([t] + ts)[1..] == ts;
    if t == Ch('\n') {
      assert (TokText(t) + TextOf(ts))[1..] == TextOf(ts);
      TextsCons([], rest);
    } else {
      if !t.Ch? {
        SpanText(t);
      }
      LinesPrepend(TokText(t), TextOf(ts));
      HeadText(t, rest[0]);
      TextsTail(rest);
      TextsCons([t] + rest[0], rest[1..]);
    }
  }

  lemma HeadText(t: Tok, l: seq<Tok>)
    ensures TextOf([t] + l) == TokText(t) + TextOf(l)
  {
    assert ([t] + l)[1..] == l;
  }

  lemma {:induction false} DropLeadOfToks(l: seq<Tok>)
    requires ToksOk(l)
    ensures DropLead(TextOf(l)) == TextOf(DropLeadToks(l)) && ToksOk(DropLeadToks(l))
  {
    if l != [] {
      if l[0].Ch? {
        assert TextOf(l)[0] == l[0].c && TextOf(l)[1..] == TextOf(l[1..]);
        DropLeadOfToks(l[1..]);
      } else {
        SpanText(l[0]);
        assert TextOf(l)[0] == TokText(l[0])[0];
      }
    }
  }

  lemma NeutralizedConcat(a: string, b: string)
    ensures Neutralized(a + b) == Neutralized(a) + Neutralized(b)
  {
  }

  lemma NeutralTokText(t: Tok)
    requires TokOk(t)
    ensures Neutralized(TokText(t)) == TokText(NeutralTok(t))
  {
    if !t.Ch? {
      SpanText(t);
    }
  }

  lemma {:induction false} NeutralOfToks(l: seq<Tok>)
    requires ToksOk(l)
    ensures Neutralized(TextOf(l)) == TextOf(NeutralToks(l)) && ToksOk(NeutralToks(l))
  {
    if l != [] {
      NeutralOfToks(l[1..]);
      assert NeutralToks(l)[1..] == NeutralToks(l[1..]);
      NeutralTokText(l[0]);
      NeutralizedConcat(TokText(l[0]), TextOf(l[1..]));
    }
  }

  lemma EmptyText(l: seq<Tok>)
    requires ToksOk(l)
    ensures TextOf(l) == "" <==> l == []
  {
    if l != [] && !l[0].Ch? {
      SpanText(l[0]);
    }
  }

  lemma PlainOfToks(l: seq<Tok>)
    requires ToksOk(l)
    ensures PlainLined(TextOf(l)) == TextOf(PlainToks(l))
    ensures PlainLined(TextOf(l)) == "" <==> PlainToks(l) == []
  {
    DropLeadOfToks(l);
    NeutralOfToks(DropLeadToks(l));
    EmptyText(PlainToks(l));
  }

  lemma {:induction false} ParagraphsOfToks(ls: seq<seq<Tok>>)
    requires forall i :: 0 <= i < |ls| ==> ToksOk(ls[i])
    ensures Paragraphs(Texts(ls)) == Texts(ParagraphToks(ls))
  {
    if ls != [] {
      PlainOfToks(ls[0]);
      hide PlainToks, PlainLined, TextOf, ToksOk;
      TextsTail(ls);
      ParagraphsOfToks(ls[1..]);
      var p, rest := PlainToks(ls[0]), ParagraphToks(ls[1..]);
      TextsCons(p, rest);
      assert [] + rest == rest && [] + Texts(rest) == Texts(rest);
    }
  }

  lemma {:induction false} JoinOfToks(ps: seq<seq<Tok>>)
    ensures JoinParagraphs(Texts(ps)) == TextOf(JoinToks(ps))
  {
    if |ps| > 1 {
      assert Texts(ps)[1..] == Texts(ps[1..]);
      JoinOfToks(ps[1..]);
      var gap := [Ch('\n'), Ch('\n')];
      TextOfConcat(ps[0] + gap, JoinToks(ps[1..]));
      TextOfConcat(ps[0], gap);
      TextOfChars("\n\n");
      assert Chars("\n\n") == gap;
    }
  }

  lemma {:induction false} LineToksOk(ts: seq<Tok>)
    requires ToksOk(ts)
    ensures forall i :: 0 <= i < |LineToks(ts)| ==> ToksOk(LineToks(ts)[i])
  {
    if ts != [] {
      LineToksOk(ts[1..]);
    }
  }

  /** Splitting, trimming and re-joining the text is the same as doing it to the
      atoms: no span is ever cut. */
  lemma FlattenOfToks(ts: seq<Tok>)
    requires ToksOk(ts)
    ensures Flattened(TextOf(ts)) == TextOf(FlatToks(ts))
  {
    LinesOfToks(ts);
    LineToksOk(ts);
    ParagraphsOfToks(LineToks(ts));
    JoinOfToks(ParagraphToks(LineToks(ts)));
  }

  // ----------------------------------------------------- spans are preserved

  function Spans(ts: seq<Tok>): seq<Tok> {
    if ts == [] then [] else (if ts[0].Ch? then [] else [ts[0]]) + Spans(ts[1..])
  }

  lemma {:induction false} SpansConcat(a: seq<Tok>, b: seq<Tok>)
    ensures Spans(a + b) == Spans(a) + Spans(b)
  {
    if a == [] {
      assert a + b == b;
    } else {
      assert (a + b)[1..] == a[1..] + b;
      SpansConcat(a[1..], b);
    }
  }

  function AllSpans(ls: seq<seq<Tok>>): seq<Tok> {
    if ls == [] then [] else Spans(ls[0]) + AllSpans(ls[1..])
  }

  lemma AllSpansCons(l: seq<Tok>, ls: seq<seq<Tok>>)
    ensures AllSpans([l] + ls) == Spans(l) + AllSpans(ls)
  {
    assert ([l] + ls)[1..] == ls;
  }

  lemma SpansHead(t: Tok, ts: seq<Tok>)
    ensures Spans([t] + ts) == (if t.Ch? then Spans(ts) else [t] + Spans(ts))
  {
    assert ([t] + ts)[1..] == ts;
    assert [] + Spans(ts) == Spans(ts);
  }

  lemma {:induction false} SpansOfLines(ts: seq<Tok>)
    ensures AllSpans(LineToks(ts)) == Spans(ts)
  {
    if ts == [] {
      AllSpansCons([], []);
    } else {
      SpansOfLines(ts[1..]);
      var t, rest := ts[0], LineToks(ts[1..]);
      SpansHead(t, ts[1..]);
      assert ts == [t] + ts[1..] && rest == [rest[0]] + rest[1..];
      AllSpansCons(rest[0], rest[1..]);
      if t == Ch('\n') {
        AllSpansCons([], rest);
      } else {
        AllSpansCons([t] + rest[0], rest[1..]);
        SpansHead(t, rest[0]);
      }
    }
  }

  lemma {:induction false} SpansOfPlain(l: seq<Tok>)
    ensures Spans(DropLeadToks(l)) == Spans(l) && Spans(NeutralToks(l)) == Spans(l)
  {
    if l != [] {
      SpansOfPlain(l[1..]);
      assert NeutralToks(l)[1..] == NeutralToks(l[1..]);
    }
  }

  lemma {:induction false} SpansOfParagraphs(ls: seq<seq<Tok>>)
    ensures AllSpans(ParagraphToks(ls)) == AllSpans(ls)
  {
    if ls != [] {
      SpansOfParagraphs(ls[1..]);
      SpansOfPlain(ls[0]);
      SpansOfPlain(DropLeadToks(ls[0]));
      var p := PlainToks(ls[0]);
      if p != [] {
        assert ([p] + ParagraphToks(ls[1..]))[1..] == ParagraphToks(ls[1..]);
      } else {
        assert [] + ParagraphToks(ls[1..]) == ParagraphToks(ls[1..]);
      }
    }
  }

  lemma {:induction false} SpansOfJoin(ps: seq<seq<Tok>>)
    ensures Spans(JoinToks(ps)) == AllSpans(ps)
  {
    if |ps| == 1 {
      assert AllSpans(ps[1..]) == [];
    } else if |ps| > 1 {
      SpansOfJoin(ps[1..]);
      var gap := [Ch('\n'), Ch('\n')];
      SpansConcat(ps[0] + gap, JoinToks(ps[1..]));
      SpansConcat(ps[0], gap);
      assert gap[1..] == [Ch('\n')] && [Ch('\n')][1..] == [];
      assert Spans(gap) == [];
    }
  }

  lemma SpansOfFlat(ts: seq<Tok>)
    ensures Spans(FlatToks(ts)) == Spans(ts)
  {
    SpansOfLines(ts);
    SpansOfParagraphs(LineToks(ts));
    SpansOfJoin(ParagraphToks(LineToks(ts)));
  }

  // ----------------------------------------------------- literals stay clean

  /** A literal character: not a digit of any kind, not a bracket of the program's. */
  ghost predicate CleanTok(t: Tok, numeric: char -> bool) {
    t.Ch? ==> !numeric(t.c) && t.c !in RESERVED
  }

  ghost predicate Clean(ts: seq<Tok>, numeric: char -> bool) {
    forall i :: 0 <= i < |ts| ==> CleanTok(ts[i], numeric)
  }

  ghost predicate AllClean(ls: seq<seq<Tok>>, numeric: char -> bool) {
    forall i :: 0 <= i < |ls| ==> Clean(ls[i], numeric)
  }

  lemma {:induction false} CleanLines(ts: seq<Tok>, numeric: char -> bool)
    requires Clean(ts, numeric)
    ensures AllClean(LineToks(ts), numeric)
  {
    if ts != [] {
      CleanLines(ts[1..], numeric);
    }
  }

  lemma {:induction false} CleanDrop(l: seq<Tok>, numeric: char -> bool)
    requires Clean(l, numeric)
    ensures Clean(DropLeadToks(l), numeric)
  {
    if l != [] {
      CleanDrop(l[1..], numeric);
    }
  }

  lemma {:induction false} CleanParagraphs(ls: seq<seq<Tok>>, numeric: char -> bool)
    requires AllClean(ls, numeric) && NumericClass(numeric)
    ensures AllClean(ParagraphToks(ls), numeric)
  {
    if ls != [] {
      CleanDrop(ls[0], numeric);
      CleanParagraphs(ls[1..], numeric);
    }
  }

  lemma {:induction false} CleanJoin(ps: seq<seq<Tok>>, numeric: char -> bool)
    requires AllClean(ps, numeric) && NumericClass(numeric)
    ensures Clean(JoinToks(ps), numeric)
  {
    if |ps| > 1 {
      CleanJoin(ps[1..], numeric);
    }
  }

  lemma CleanFlat(ts: seq<Tok>, numeric: char -> bool)
    requires Clean(ts, numeric) && NumericClass(numeric)
    ensures Clean(FlatToks(ts), numeric)
  {
    CleanLines(ts, numeric);
    CleanParagraphs(LineToks(ts), numeric);
    CleanJoin(ParagraphToks(LineToks(ts)), numeric);
  }

  // ------------------------------------------------------- the measure rule

  /** A literal Chinese numeral, or a rendered unit: a number either way. */
  predicate Counts(t: Tok) {
    t.Unit? || (t.Ch? && IsCjkNumeral(t.c))
  }

  /** No number is followed, at most one space on, by a measure word. */
  ghost predicate NoMeasure(ts: seq<Tok>) {
    forall i :: 0 <= i < |ts| && Counts(ts[i]) ==> MeasureAt(TextOf(ts[i + 1..])).None?
  }

  ghost predicate StartsWithMeasure(r: string) {
    exists k :: 0 <= k < |MEASURE| && MEASURE[k] <= r
  }

  function SkipSpace(r: string): string {
    if r != "" && r[0] == ' ' then r[1..] else r
  }

  lemma FirstMeasureIff(r: string, k: nat)
    requires k <= |MEASURE|
    ensures FirstMeasure(r, k).Some? <==> exists j :: k <= j < |MEASURE| && MEASURE[j] <= r
    decreases |MEASURE| - k
  {
    if k < |MEASURE| {
      FirstMeasureIff(r, k + 1);
    }
  }

  lemma MeasureAtIff(r: string)
    ensures MeasureAt(r).Some? <==> StartsWithMeasure(SkipSpace(r))
  {
    FirstMeasureIff(SkipSpace(r), 0);
  }

  /** Characters no measure word contains. */
  predicate Stops(c: char) {
    c in ['\n', '{', OPEN_UNIT, OPEN_TITLE]
  }

  predicate MeasureChar(c: char) {
    || c == '小' || c == '时' || c == '分' || c == '钟' || c == '个' || c == '件' || c == '次'
    || c == '项' || c == '天' || c == '周' || c == '%' || c == '％' || c == '倍' || c == '成'
  }

  lemma MeasureCharApart(c: char)
    requires MeasureChar(c)
    ensures !Stops(c) && c != ' ' && c !in ['<', '&', '\U{FF1C}', '\U{FF06}']
    ensures !IsCjkNumeral(c)
  {
  }

  lemma MeasureWords(k: nat)
    requires k < |MEASURE|
    ensures 1 <= |MEASURE[k]| <= 2
    ensures forall i :: 0 <= i < |MEASURE[k]| ==> MeasureChar(MEASURE[k][i])
  {
  }

  lemma MeasureGrows(a: string, b: string)
    requires MeasureAt(a).Some?
    ensures MeasureAt(a + b).Some?
  {
    MeasureAtIff(a);
    MeasureAtIff(a + b);
    var k :| 0 <= k < |MEASURE| && MEASURE[k] <= SkipSpace(a);
    MeasureWords(k);
    assert SkipSpace(a + b) == SkipSpace(a) + b;
    assert MEASURE[k] <= SkipSpace(a) + b;
  }

  /** A measure word cannot straddle a bracket, a line end or a placeholder. */
  lemma MeasureStops(a: string, b: string)
    requires b == "" || Stops(b[0])
    requires MeasureAt(a + b).Some?
    ensures MeasureAt(a).Some?
  {
    MeasureAtIff(a);
    MeasureAtIff(a + b);
    hide MeasureAt, MeasureChar, IsCjkNumeral;
    if b == "" {
      assert a + b == a;
    } else {
      var k :| 0 <= k < |MEASURE| && MEASURE[k] <= SkipSpace(a + b);
      MeasureWords(k);
      var m, r := MEASURE[k], SkipSpace(a);
      assert SkipSpace(a + b) == r + b;
      if |m| > |r| {
        assert m[|r|] == (r + b)[|r|] == b[0];
        MeasureCharApart(m[|r|]);
      }
      assert m <= r;
    }
  }

  lemma MeasureNeutral(a: string)
    ensures MeasureAt(Neutralized(a)).Some? ==> MeasureAt(a).Some?
  {
    MeasureAtIff(a);
    MeasureAtIff(Neutralized(a));
    hide MeasureAt, MeasureChar, IsCjkNumeral;
    if MeasureAt(Neutralized(a)).Some? {
      var k :| 0 <= k < |MEASURE| && MEASURE[k] <= SkipSpace(Neutralized(a));
      MeasureWords(k);
      assert SkipSpace(Neutralized(a)) == Neutralized(SkipSpace(a));
      var m, r := MEASURE[k], SkipSpace(a);
      forall i | 0 <= i < |m| ensures m[i] == r[i] {
        MeasureCharApart(m[i]);
        assert m[i] == Neutral(r[i]);
      }
      assert m <= r;
    }
  }

  /** Three characters of lookahead decide what the whole rest would. */
  lemma AheadIsEnough(s: string, j: nat)
    requires j <= |s| && MeasureAt(s[j..]).Some?
    ensures MeasureAt(Ahead(s, j)).Some?
  {
    MeasureAtIff(s[j..]);
    MeasureAtIff(Ahead(s, j));
    var k :| 0 <= k < |MEASURE| && MEASURE[k] <= SkipSpace(s[j..]);
    MeasureWords(k);
    assert MEASURE[k] <= SkipSpace(Ahead(s, j));
  }

  lemma NumeralIsNoMeasure(r: string)
    requires r != "" && IsCjkNumeral(r[0])
    ensures MeasureAt(r).None?
  {
    MeasureAtIff(r);
    if StartsWithMeasure(SkipSpace(r)) {
      var k :| 0 <= k < |MEASURE| && MEASURE[k] <= SkipSpace(r);
      MeasureWords(k);
      assert MEASURE[k][0] == r[0];
      MeasureCharApart(MEASURE[k][0]);
    }
  }

  /** Inside a run the next character is a numeral; at its end, the lookahead spoke. */
  lemma InRun(s: string, p: nat, j: nat)
    requires p < j <= |s| && MeasureAt(Ahead(s, j)).None?
    requires forall k :: p <= k < j ==> IsCjkNumeral(s[k])
    ensures MeasureAt(s[p + 1..]).None?
  {
    if p + 1 < j {
      NumeralIsNoMeasure(s[p + 1..]);
    } else if MeasureAt(s[j..]).Some? {
      AheadIsEnough(s, j);
    }
  }

  lemma {:induction false} RunsAreClean(s: string, i: nat, p: nat)
    requires i <= p < |s| && RunsFrom(s, i).Ok? && IsCjkNumeral(s[p])
    ensures MeasureAt(s[p + 1..]).None?
    decreases |s| - i
  {
    var numeral := IsCjkNumeral(s[i]);
    if !numeral {
      RunsAreClean(s, i + 1, p);
    } else {
      var j := RunEnd(s, i + 1);
      var m := MeasureAt(Ahead(s, j));
      assert m.None?;
      if p >= j {
        RunsAreClean(s, j, p);
      } else {
        InRun(s, p, j);
      }
    }
  }

  // --------------------------------------------------- a successful rendering

  ghost predicate FactsOk(fs: seq<Fact>) {
    forall i :: 0 <= i < |fs| ==> AllUnitInner(fs[i].caption) && AllUnitInner(fs[i].value)
  }

  lemma LiteralSound(s: string, numeric: char -> bool)
    requires CheckedLiteral(s, numeric).Ok?
    ensures Clean(Chars(s), numeric)
    ensures forall p :: 0 <= p < |s| && IsCjkNumeral(s[p]) ==> MeasureAt(s[p + 1..]).None?
  {
    forall p | 0 <= p < |s| && IsCjkNumeral(s[p]) ensures MeasureAt(s[p + 1..]).None? {
      RunsAreClean(s, 0, p);
    }
  }

  lemma TextAfterLiteral(lit: string, i: nat, ts: seq<Tok>)
    requires i <= |lit|
    ensures TextOf((Chars(lit) + ts)[i..]) == lit[i..] + TextOf(ts)
  {
    assert (Chars(lit) + ts)[i..] == Chars(lit[i..]) + ts;
    TextOfConcat(Chars(lit[i..]), ts);
    TextOfChars(lit[i..]);
  }

  /** No measure word starts inside a literal, or runs out of it. */
  lemma LiteralThen(lit: string, i: nat, ts: seq<Tok>)
    requires i <= |lit| && (TextOf(ts) == "" || Stops(TextOf(ts)[0]))
    ensures MeasureAt(TextOf((Chars(lit) + ts)[i..])).Some? ==> MeasureAt(lit[i..]).Some?
  {
    hide *;
    TextAfterLiteral(lit, i, ts);
    if MeasureAt(lit[i..] + TextOf(ts)).Some? {
      MeasureStops(lit[i..], TextOf(ts));
    }
  }

  lemma LiteralAtoms(lit: string, ts: seq<Tok>, i: nat)
    requires i < |Chars(lit) + ts|
    ensures |Chars(lit)| == |lit|
    ensures i < |lit| ==> (Counts((Chars(lit) + ts)[i]) <==> IsCjkNumeral(lit[i]))
    ensures i >= |lit| ==> (Chars(lit) + ts)[i] == ts[i - |lit|] && (Chars(lit) + ts)[i + 1..] == ts[i - |lit| + 1..]
  {
    hide IsCjkNumeral;
  }

  /** A clean literal in front of a span, or of nothing, keeps the measure rule. */
  lemma NoMeasureLiteral(lit: string, ts: seq<Tok>, numeric: char -> bool)
    requires CheckedLiteral(lit, numeric).Ok?
    requires NoMeasure(ts) && (TextOf(ts) == "" || Stops(TextOf(ts)[0]))
    ensures NoMeasure(Chars(lit) + ts)
    ensures MeasureAt(TextOf(Chars(lit) + ts)).Some? ==> MeasureAt(lit).Some?
  {
    LiteralSound(lit, numeric);
    hide MeasureAt, CheckedLiteral, TextOf, Stops, Chars, Counts, IsCjkNumeral;
    var all := Chars(lit) + ts;
    forall i | 0 <= i < |all| && Counts(all[i]) ensures MeasureAt(TextOf(all[i + 1..])).None? {
      LiteralAtoms(lit, ts, i);
      if i < |lit| {
        LiteralThen(lit, i + 1, ts);
      }
    }
    LiteralThen(lit, 0, ts);
    assert all[0..] == all && lit[0..] == lit;
  }

  lemma NoMeasureSpan(tok: Tok, ts: seq<Tok>)
    requires !tok.Ch? && NoMeasure(ts)
    requires tok.Unit? ==> MeasureAt(TextOf(ts)).None?
    ensures NoMeasure([tok] + ts)
  {
    var all := [tok] + ts;
    forall i | 0 <= i < |all| && Counts(all[i]) ensures MeasureAt(TextOf(all[i + 1..])).None? {
      assert all[i + 1..] == ts[i..];
      if i > 0 {
        assert ts[i..] == ts[i - 1 + 1..];
      } else {
        assert ts[0..] == ts;
      }
    }
  }

  /** A successful rendering, one piece at a time. */
  lemma RenderedOfPiece(rest: string, fs: seq<Fact>, titles: seq<string>, numeric: char -> bool)
    requires Rendered(rest, fs, titles, numeric).Ok?
    ensures NextPiece(rest, fs, titles, numeric).Ok?
    ensures var p, whole := NextPiece(rest, fs, titles, numeric).value, Rendered(rest, fs, titles, numeric).value;
            && (p.Tail? ==> whole == Chars(rest) && CheckedLiteral(rest, numeric).Ok?)
            && (p.Hole? ==> Rendered(p.next, fs, titles, numeric).Ok?
                            && whole == Chars(p.lit) + ([p.tok] + Rendered(p.next, fs, titles, numeric).value))
  {
    hide NextPiece, CheckedLiteral;
    var p := NextPiece(rest, fs, titles, numeric).value;
    if p.Hole? {
      var tail := Rendered(p.next, fs, titles, numeric).value;
      assert Chars(p.lit) + [p.tok] + tail == Chars(p.lit) + ([p.tok] + tail);
    }
  }

  /** What the checks guarantee of the atoms rendered from `rest`. */
  ghost predicate Sound(ts: seq<Tok>, rest: string, numeric: char -> bool) {
    && ToksOk(ts) && Clean(ts, numeric) && NoMeasure(ts)
    && (MeasureAt(TextOf(ts)).Some? ==> MeasureAt(rest).Some?)
  }

  lemma SoundTail(rest: string, numeric: char -> bool)
    requires CheckedLiteral(rest, numeric).Ok?
    ensures Sound(Chars(rest), rest, numeric)
  {
    hide CheckedLiteral, MeasureAt;
    LiteralSound(rest, numeric);
    NoMeasureLiteral(rest, [], numeric);
    assert Chars(rest) + [] == Chars(rest);
  }

  lemma SoundSpan(tok: Tok, tail: seq<Tok>, next: string, numeric: char -> bool)
    requires Sound(tail, next, numeric) && !tok.Ch? && TokOk(tok)
    requires tok.Unit? ==> MeasureAt(next).None?
    ensures ToksOk([tok] + tail) && Clean([tok] + tail, numeric) && NoMeasure([tok] + tail)
    ensures TextOf([tok] + tail) != "" && Stops(TextOf([tok] + tail)[0])
  {
    hide MeasureAt;
    SpanText(tok);
    HeadText(tok, tail);
    NoMeasureSpan(tok, tail);
  }

  lemma MeasureInPrefix(a: string, b: string)
    requires a <= b && MeasureAt(a).Some?
    ensures MeasureAt(b).Some?
  {
    hide MeasureAt;
    MeasureGrows(a, b[|a|..]);
    assert a + b[|a|..] == b;
  }

  lemma SoundHole(lit: string, tok: Tok, tail: seq<Tok>, rest: string, next: string, numeric: char -> bool)
    requires CheckedLiteral(lit, numeric).Ok? && Sound(tail, next, numeric)
    requires !tok.Ch? && TokOk(tok) && (tok.Unit? ==> MeasureAt(next).None?)
    requires lit <= rest
    ensures Sound(Chars(lit) + ([tok] + tail), rest, numeric)
  {
    SoundSpan(tok, tail, next, numeric);
    LiteralSound(lit, numeric);
    hide CheckedLiteral, MeasureAt, TokOk, NoMeasure, TextOf, CleanTok, Stops;
    NoMeasureLiteral(lit, [tok] + tail, numeric);
    if MeasureAt(lit).Some? {
      MeasureInPrefix(lit, rest);
    }
  }

  lemma {:induction false} RenderedSound(rest: string, fs: seq<Fact>, titles: seq<string>, numeric: char -> bool)
    requires FactsOk(fs) && Rendered(rest, fs, titles, numeric).Ok?
    ensures Sound(Rendered(rest, fs, titles, numeric).value, rest, numeric)
    decreases |rest|
  {
    RenderedOfPiece(rest, fs, titles, numeric);
    hide Rendered, NextPiece, CheckedLiteral, MeasureAt, Sound;
    match NextPiece(rest, fs, titles, numeric).value
    case Tail => SoundTail(rest, numeric);
    case Hole(lit, tok, next) =>
      RenderedSound(next, fs, titles, numeric);
      SoundHole(lit, tok, Rendered(next, fs, titles, numeric).value, rest, next, numeric);
  }
}
