/** The guarantees of a filled narrative, stated of the text that is stored. */
module NarrativeTheorems {
  import opened Prelude
  import opened Text
  import opened Facts
  import opened Narrative
  import opened NarrativeSafety

  // ------------------------------------- the measure rule survives flattening

  ghost predicate AllNoMeasure(ls: seq<seq<Tok>>) {
    forall i :: 0 <= i < |ls| ==> NoMeasure(ls[i])
  }

  lemma NoMeasureTail(ts: seq<Tok>, k: nat)
    requires NoMeasure(ts) && k <= |ts|
    ensures NoMeasure(ts[k..])
  {
    forall i | 0 <= i < |ts| - k && Counts(ts[k..][i]) ensures MeasureAt(TextOf(ts[k..][i + 1..])).None? {
      assert ts[k..][i + 1..] == ts[k + i + 1..];
    }
  }

  lemma NoMeasureHead(t: Tok, ts: seq<Tok>)
    requires NoMeasure(ts) && (Counts(t) ==> MeasureAt(TextOf(ts)).None?)
    ensures NoMeasure([t] + ts)
  {
    hide MeasureAt, TextOf, Counts;
    var all := [t] + ts;
    forall i | 0 <= i < |all| && Counts(all[i]) ensures MeasureAt(TextOf(all[i + 1..])).None? {
      if i == 0 {
        assert all[1..] == ts;
      } else {
        assert all[i + 1..] == ts[i..];
      }
    }
  }

  lemma PrefixUnder(h: string, a: string, b: string)
    requires a <= b
    ensures h + a <= h + b
  {
    assert h + b == (h + a) + b[|a|..];
  }

  lemma {:induction false} FirstLineIsPrefix(ts: seq<Tok>)
    ensures TextOf(LineToks(ts)[0]) <= TextOf(ts)
  {
    if ts != [] && ts[0] != Ch('\n') {
      var first, t := LineToks(ts[1..])[0], ts[0];
      FirstLineIsPrefix(ts[1..]);
      assert LineToks(ts)[0] == [t] + first;
      HeadText(t, first);
      PrefixUnder(TokText(t), TextOf(first), TextOf(ts[1..]));
    }
  }

  /** A counted atom stays clear of measure words when its line is cut short. */
  lemma NoMeasureCut(t: Tok, line: seq<Tok>, rest: seq<Tok>)
    requires NoMeasure(line) && TextOf(line) <= TextOf(rest)
    requires Counts(t) ==> MeasureAt(TextOf(rest)).None?
    ensures NoMeasure([t] + line)
  {
    hide *;
    var a, b := TextOf(line), TextOf(rest);
    assert a + b[|a|..] == b;
    if Counts(t) && MeasureAt(a).Some? {
      MeasureGrows(a, b[|a|..]);
    }
    NoMeasureHead(t, line);
  }

  lemma {:induction false} NoMeasureLines(ts: seq<Tok>)
    requires NoMeasure(ts)
    ensures AllNoMeasure(LineToks(ts))
  {
    if ts != [] {
      NoMeasureTail(ts, 1);
      NoMeasureLines(ts[1..]);
      if ts[0] != Ch('\n') {
        FirstLineIsPrefix(ts[1..]);
        NoMeasureCut(ts[0], LineToks(ts[1..])[0], ts[1..]);
      }
    }
  }

  lemma {:induction false} NoMeasurePlain(l: seq<Tok>)
    requires NoMeasure(l) && ToksOk(l)
    ensures NoMeasure(DropLeadToks(l)) && NoMeasure(NeutralToks(l))
  {
    if l != [] {
      NoMeasureTail(l, 1);
      NoMeasurePlain(l[1..]);
      assert NeutralToks(l) == [NeutralTok(l[0])] + NeutralToks(l[1..]);
      NeutralOfToks(l[1..]);
      if Counts(l[0]) {
        MeasureNeutral(TextOf(l[1..]));
      }
      NeutralCounts(l[0]);
      NoMeasureHead(NeutralTok(l[0]), NeutralToks(l[1..]));
    }
  }

  lemma NeutralCounts(t: Tok)
    ensures Counts(NeutralTok(t)) ==> Counts(t)
  {
  }

  lemma {:induction false} NoMeasureParagraphs(ls: seq<seq<Tok>>)
    requires AllNoMeasure(ls) && forall i :: 0 <= i < |ls| ==> ToksOk(ls[i])
    ensures AllNoMeasure(ParagraphToks(ls))
  {
    if ls != [] {
      NoMeasureParagraphs(ls[1..]);
      NoMeasurePlain(ls[0]);
      DropLeadOfToks(ls[0]);
      NoMeasurePlain(DropLeadToks(ls[0]));
    }
  }

  lemma NoMeasureInFront(a: seq<Tok>, b: seq<Tok>, i: nat)
    requires i <= |a| && MeasureAt(TextOf(a[i..])).None?
    requires TextOf(b) == "" || Stops(TextOf(b)[0])
    ensures MeasureAt(TextOf((a + b)[i..])).None?
  {
    hide *;
    assert (a + b)[i..] == a[i..] + b;
    TextOfConcat(a[i..], b);
    if MeasureAt(TextOf(a[i..]) + TextOf(b)).Some? {
      MeasureStops(TextOf(a[i..]), TextOf(b));
    }
  }

  lemma NoMeasureAcross(a: seq<Tok>, b: seq<Tok>)
    requires NoMeasure(a) && NoMeasure(b)
    requires TextOf(b) == "" || Stops(TextOf(b)[0])
    ensures NoMeasure(a + b)
  {
    hide MeasureAt, TextOf, Stops, Counts;
    forall i | 0 <= i < |a + b| && Counts((a + b)[i]) ensures MeasureAt(TextOf((a + b)[i + 1..])).None? {
      if i < |a| {
        assert Counts(a[i]);
        NoMeasureInFront(a, b, i + 1);
      } else {
        assert Counts(b[i - |a|]);
        assert (a + b)[i + 1..] == b[i - |a| + 1..];
      }
    }
  }

  lemma LineEndStops(ts: seq<Tok>)
    ensures TextOf([Ch('\n')] + ts) != "" && Stops(TextOf([Ch('\n')] + ts)[0])
  {
    HeadText(Ch('\n'), ts);
  }

  lemma JoinUnfolds(ps: seq<seq<Tok>>)
    requires |ps| > 1
    ensures JoinToks(ps) == ps[0] + ([Ch('\n')] + ([Ch('\n')] + JoinToks(ps[1..])))
  {
    GapRegroups(ps[0], Ch('\n'), JoinToks(ps[1..]));
  }

  lemma GapRegroups<T>(a: seq<T>, x: T, c: seq<T>)
    ensures a + [x, x] + c == a + ([x] + ([x] + c))
  {
  }

  lemma LineEndCountsNothing()
    ensures !Counts(Ch('\n'))
  {
  }

  lemma AllNoMeasureParts(ps: seq<seq<Tok>>)
    requires AllNoMeasure(ps)
    ensures ps == [] ==> NoMeasure(JoinToks(ps))
    ensures |ps| == 1 ==> NoMeasure(JoinToks(ps))
    ensures ps != [] ==> NoMeasure(ps[0]) && AllNoMeasure(ps[1..])
  {
    hide MeasureAt, TextOf;
  }

  lemma {:induction false} NoMeasureJoin(ps: seq<seq<Tok>>)
    requires AllNoMeasure(ps)
    ensures NoMeasure(JoinToks(ps))
  {
    hide *;
    AllNoMeasureParts(ps);
    if |ps| > 1 {
      NoMeasureJoin(ps[1..]);
      var tail := JoinToks(ps[1..]);
      LineEndCountsNothing();
      NoMeasureHead(Ch('\n'), tail);
      NoMeasureHead(Ch('\n'), [Ch('\n')] + tail);
      LineEndStops([Ch('\n')] + tail);
      NoMeasureAcross(ps[0], [Ch('\n')] + ([Ch('\n')] + tail));
      JoinUnfolds(ps);
    }
  }

  // ------------------------------------------------------ the main statement

  /** The placeholder keys of a narrative, in order. */
  function Keys(rest: string): seq<string>
    decreases |rest|
  {
    var open := FindPair(rest, '{');
    if open.None? then []
    else
      var after := rest[open.value + 2..];
      var close := FindPair(after, '}');
      if close.None? then [] else [after[..close.value]] + Keys(after[close.value + 2..])
  }

  ghost predicate Resolved(keys: seq<string>, spans: seq<Tok>, fs: seq<Fact>, titles: seq<string>) {
    |keys| == |spans| && forall i :: 0 <= i < |keys| ==> Resolve(keys[i], fs, titles) == Some(spans[i])
  }

  lemma {:induction false} CharsHaveNoSpans(s: string)
    ensures Spans(Chars(s)) == []
  {
    if s != "" {
      assert Chars(s)[1..] == Chars(s[1..]);
      CharsHaveNoSpans(s[1..]);
    }
  }

  lemma SpansAfterLiteral(lit: string, tok: Tok, ts: seq<Tok>)
    requires !tok.Ch?
    ensures Spans(Chars(lit) + ([tok] + ts)) == [tok] + Spans(ts)
  {
    CharsHaveNoSpans(lit);
    SpansConcat(Chars(lit), [tok] + ts);
    SpansHead(tok, ts);
    assert [] + ([tok] + Spans(ts)) == [tok] + Spans(ts);
  }

  /** The placeholders cut off a narrative are the ones its keys name. */
  lemma KeysOfPiece(rest: string, fs: seq<Fact>, titles: seq<string>, numeric: char -> bool)
    requires NextPiece(rest, fs, titles, numeric).Ok?
    ensures match NextPiece(rest, fs, titles, numeric).value
            case Tail => Keys(rest) == []
            case Hole(_, tok, next) =>
              Keys(rest) != [] && Keys(rest)[1..] == Keys(next) && Resolve(Keys(rest)[0], fs, titles) == Some(tok)
  {
    hide CheckedLiteral, Resolve, FindPair;
  }

  lemma NothingResolved(fs: seq<Fact>, titles: seq<string>)
    ensures Resolved([], [], fs, titles)
  {
  }

  lemma ResolvedCons(keys: seq<string>, tok: Tok, spans: seq<Tok>, fs: seq<Fact>, titles: seq<string>)
    requires keys != [] && Resolve(keys[0], fs, titles) == Some(tok) && Resolved(keys[1..], spans, fs, titles)
    ensures Resolved(keys, [tok] + spans, fs, titles)
  {
    hide Resolve;
    forall i | 0 < i < |keys| ensures Resolve(keys[i], fs, titles) == Some(([tok] + spans)[i]) {
      assert keys[1..][i - 1] == keys[i];
    }
  }

  lemma {:induction false} RenderedSpans(rest: string, fs: seq<Fact>, titles: seq<string>, numeric: char -> bool)
    requires Rendered(rest, fs, titles, numeric).Ok?
    ensures Resolved(Keys(rest), Spans(Rendered(rest, fs, titles, numeric).value), fs, titles)
    decreases |rest|
  {
    hide *;
    RenderedOfPiece(rest, fs, titles, numeric);
    KeysOfPiece(rest, fs, titles, numeric);
    match NextPiece(rest, fs, titles, numeric).value
    case Tail =>
      CharsHaveNoSpans(rest);
      NothingResolved(fs, titles);
    case Hole(lit, tok, next) =>
      RenderedSpans(next, fs, titles, numeric);
      var tail := Rendered(next, fs, titles, numeric).value;
      SpansAfterLiteral(lit, tok, tail);
      ResolvedCons(Keys(rest), tok, Spans(tail), fs, titles);
  }

  /** The atoms a stored narrative consists of. */
  function Atoms(raw: string, fs: seq<Fact>, titles: seq<string>, numeric: char -> bool): seq<Tok>
    requires Filled(raw, fs, titles, numeric).Ok?
  {
    FlatToks(Rendered(Normalized(raw), fs, titles, numeric).value)
  }

  /** Whatever the model wrote, if it is accepted then the stored text is a
      sequence of clean literal characters and whole program-rendered spans: the
      spans are those of its placeholders in order, no literal character is
      numeric or one of the program's brackets, and no number, unit or Chinese
      numeral run, is followed by a measure word. */
  lemma NarrativeIsSafe(raw: string, d: Draft, titles: seq<string>, numeric: char -> bool)
    requires NumericClass(numeric)
    requires Filled(raw, Keyed(Entries(d)), titles, numeric).Ok?
    ensures var fs := Keyed(Entries(d));
            var ts := Atoms(raw, fs, titles, numeric);
            && Filled(raw, fs, titles, numeric).value == TextOf(ts)
            && Resolved(Keys(Normalized(raw)), Spans(ts), fs, titles)
            && Clean(ts, numeric) && NoMeasure(ts)
            && (forall i :: 0 <= i < |Spans(ts)| ==> TokOk(Spans(ts)[i]))
  {
    var fs := Keyed(Entries(d));
    DraftFactsOk(d);
    var ts := Rendered(Normalized(raw), fs, titles, numeric).value;
    RenderedSound(Normalized(raw), fs, titles, numeric);
    FlattenOfToks(ts);
    RenderedSpans(Normalized(raw), fs, titles, numeric);
    SpansOfFlat(ts);
    SpansOk(ts);
    CleanFlat(ts, numeric);
    NoMeasureLines(ts);
    LineToksOk(ts);
    NoMeasureParagraphs(LineToks(ts));
    NoMeasureJoin(ParagraphToks(LineToks(ts)));
  }

  lemma {:induction false} SpansOk(ts: seq<Tok>)
    requires ToksOk(ts)
    ensures forall i :: 0 <= i < |Spans(ts)| ==> TokOk(Spans(ts)[i]) && !Spans(ts)[i].Ch?
  {
    if ts != [] {
      SpansOk(ts[1..]);
    }
  }

  lemma DraftFactsOk(d: Draft)
    ensures FactsOk(Keyed(Entries(d)))
  {
    forall i | 0 <= i < |Entries(d)|
      ensures AllUnitInner(Keyed(Entries(d))[i].caption) && AllUnitInner(Keyed(Entries(d))[i].value)
    {
      FactsAreInner(d, i);
    }
  }

  // -------------------------------------------------------- number provenance

  /** `s[a..b]` is one span's exact text. */
  predicate IsSpanText(s: string, a: nat, b: nat, t: Tok) {
    a <= b <= |s| && s[a..b] == TokText(t) && !t.Ch?
  }

  lemma ShiftSpan(h: string, s: string, a: nat, b: nat, t: Tok)
    requires IsSpanText(s, a, b, t)
    ensures IsSpanText(h + s, a + |h|, b + |h|, t)
  {
    assert (h + s)[a + |h|..b + |h|] == s[a..b];
  }

  lemma NumberInHead(t: Tok, tail: string, numeric: char -> bool, i: nat)
    requires CleanTok(t, numeric) && i < |TokText(t)| && numeric(TokText(t)[i])
    ensures !t.Ch? && IsSpanText(TokText(t) + tail, 0, |TokText(t)|, t)
  {
    hide RenderUnit, RenderTitle;
    assert (TokText(t) + tail)[0..|TokText(t)|] == TokText(t);
  }

  lemma TextOfUncons(ts: seq<Tok>)
    ensures ts == [] ==> TextOf(ts) == ""
    ensures ts != [] ==> TextOf(ts) == TokText(ts[0]) + TextOf(ts[1..])
  {
  }

  lemma CleanUncons(ts: seq<Tok>, numeric: char -> bool)
    requires Clean(ts, numeric) && ts != []
    ensures CleanTok(ts[0], numeric) && Clean(ts[1..], numeric)
  {
  }

  lemma {:induction false} NumberInSpan(ts: seq<Tok>, numeric: char -> bool, i: nat) returns (a: nat, b: nat, k: nat)
    requires Clean(ts, numeric)
    requires i < |TextOf(ts)| && numeric(TextOf(ts)[i])
    ensures k < |Spans(ts)| && a <= i < b && IsSpanText(TextOf(ts), a, b, Spans(ts)[k])
  {
    hide *;
    TextOfUncons(ts);
    var t, rest := ts[0], ts[1..];
    var head, tail := TokText(t), TextOf(rest);
    CleanUncons(ts, numeric);
    SpansHead(t, rest);
    assert ts == [t] + rest;
    if i < |head| {
      assert numeric((head + tail)[i]);
      NumberInHead(t, tail, numeric, i);
      a, b, k := 0, |head|, 0;
    } else {
      var a', b', k' := NumberInSpan(rest, numeric, i - |head|);
      ShiftSpan(head, tail, a', b', Spans(rest)[k']);
      a, b, k := a' + |head|, b' + |head|, if t.Ch? then k' else k' + 1;
    }
  }

  /** Every numeric character of a stored narrative lies inside the byte-for-byte
      rendering of a fact of this draft or of a completed task's title. */
  lemma NumberProvenance(raw: string, d: Draft, titles: seq<string>, numeric: char -> bool, i: nat)
    requires NumericClass(numeric)
    requires Filled(raw, Keyed(Entries(d)), titles, numeric).Ok?
    requires i < |Filled(raw, Keyed(Entries(d)), titles, numeric).value|
    requires numeric(Filled(raw, Keyed(Entries(d)), titles, numeric).value[i])
    ensures var s, fs := Filled(raw, Keyed(Entries(d)), titles, numeric).value, Keyed(Entries(d));
            exists a: nat, b: nat :: a <= i < b <= |s| &&
              ((exists f :: f in fs && s[a..b] == RenderUnit(f)) || (exists t :: t in titles && s[a..b] == RenderTitle(t)))
  {
    var fs := Keyed(Entries(d));
    var s := Filled(raw, fs, titles, numeric).value;
    NarrativeIsSafe(raw, d, titles, numeric);
    var ts := Atoms(raw, fs, titles, numeric);
    var a, b, k := NumberInSpan(ts, numeric, i);
    var span, key := Spans(ts)[k], Keys(Normalized(raw))[k];
    assert Resolve(key, fs, titles) == Some(span);
    if span.Unit? {
      assert span.fact in fs && s[a..b] == RenderUnit(span.fact);
    } else {
      assert span.title in titles && s[a..b] == RenderTitle(span.title);
    }
  }

  // ------------------------------------------------------- parsing units back

  /** A reader that knows nothing of placeholders: collect every bracketed unit. */
  function ScanUnits(s: string, cur: Option<string>): seq<string> {
    if s == "" then []
    else
      match cur
      case None => ScanUnits(s[1..], if s[0] == OPEN_UNIT then Some([OPEN_UNIT]) else None)
      case Some(u) =>
        if s[0] == CLOSE_UNIT then [u + [CLOSE_UNIT]] + ScanUnits(s[1..], None)
        else ScanUnits(s[1..], Some(u + [s[0]]))
  }

  function UnitTexts(spans: seq<Tok>): seq<string> {
    if spans == [] then []
    else (if spans[0].Unit? then [RenderUnit(spans[0].fact)] else []) + UnitTexts(spans[1..])
  }

  lemma {:induction false} ScanOutside(a: string, b: string)
    requires forall i :: 0 <= i < |a| ==> a[i] != OPEN_UNIT
    ensures ScanUnits(a + b, None) == ScanUnits(b, None)
  {
    if a == "" {
      assert a + b == b;
    } else {
      assert (a + b)[1..] == a[1..] + b;
      ScanOutside(a[1..], b);
    }
  }

  lemma {:induction false} ScanInside(u: string, a: string, b: string)
    requires forall i :: 0 <= i < |a| ==> a[i] != CLOSE_UNIT
    ensures ScanUnits(a + b, Some(u)) == ScanUnits(b, Some(u + a))
    decreases |a|
  {
    if a == "" {
      assert a + b == b && u + a == u;
    } else {
      assert (a + b)[1..] == a[1..] + b && u + [a[0]] + a[1..] == u + a;
      ScanInside(u + [a[0]], a[1..], b);
    }
  }

  lemma ScanOneUnit(f: Fact, rest: string)
    requires AllUnitInner(f.caption) && AllUnitInner(f.value)
    ensures ScanUnits(RenderUnit(f) + rest, None) == [RenderUnit(f)] + ScanUnits(rest, None)
  {
    var inner := f.caption + [COLON] + f.value;
    var tail := [CLOSE_UNIT] + rest;
    var s := RenderUnit(f) + rest;
    assert s[0] == OPEN_UNIT && s[1..] == inner + tail;
    ScanInside([OPEN_UNIT], inner, tail);
    assert tail[1..] == rest;
    assert [OPEN_UNIT] + inner + [CLOSE_UNIT] == RenderUnit(f);
  }

  lemma UnitTextsHead(t: Tok, ts: seq<Tok>)
    ensures UnitTexts(Spans([t] + ts)) == (if t.Unit? then [RenderUnit(t.fact)] else []) + UnitTexts(Spans(ts))
  {
    SpansHead(t, ts);
    if !t.Ch? {
      assert ([t] + Spans(ts))[1..] == Spans(ts);
    }
  }

  lemma ScanHead(t: Tok, rest: string, numeric: char -> bool)
    requires TokOk(t) && CleanTok(t, numeric)
    ensures ScanUnits(TokText(t) + rest, None) == (if t.Unit? then [RenderUnit(t.fact)] else []) + ScanUnits(rest, None)
  {
    match t
    case Ch(c) =>
      assert OPEN_UNIT in RESERVED;
      ScanOutside([c], rest);
    case Unit(f) => ScanOneUnit(f, rest);
    case Title(_) =>
      SpanText(t);
      ScanOutside(TokText(t), rest);
  }

  lemma {:induction false} ScanToks(ts: seq<Tok>, numeric: char -> bool)
    requires ToksOk(ts) && Clean(ts, numeric)
    ensures ScanUnits(TextOf(ts), None) == UnitTexts(Spans(ts))
  {
    if ts != [] {
      ScanToks(ts[1..], numeric);
      ScanHead(ts[0], TextOf(ts[1..]), numeric);
      UnitTextsHead(ts[0], ts[1..]);
      assert [ts[0]] + ts[1..] == ts;
    }
  }

  /** Reading the stored text back by its brackets alone yields exactly the units
      of the narrative's fact placeholders, in order: none forged, none lost. */
  lemma UnitsReadBack(raw: string, d: Draft, titles: seq<string>, numeric: char -> bool)
    requires NumericClass(numeric)
    requires Filled(raw, Keyed(Entries(d)), titles, numeric).Ok?
    ensures var fs := Keyed(Entries(d));
            exists spans :: Resolved(Keys(Normalized(raw)), spans, fs, titles)
              && ScanUnits(Filled(raw, fs, titles, numeric).value, None) == UnitTexts(spans)
  {
    var fs := Keyed(Entries(d));
    var ts := Atoms(raw, fs, titles, numeric);
    NarrativeIsSafe(raw, d, titles, numeric);
    SpansOkGivesToksOk(ts);
    ScanToks(ts, numeric);
  }

  lemma {:induction false} SpansOkGivesToksOk(ts: seq<Tok>)
    requires forall i :: 0 <= i < |Spans(ts)| ==> TokOk(Spans(ts)[i])
    ensures ToksOk(ts)
  {
    if ts != [] {
      forall i | 0 <= i < |Spans(ts[1..])| ensures TokOk(Spans(ts[1..])[i]) {
        assert Spans(ts[1..])[i] == Spans(ts)[if ts[0].Ch? then i else i + 1];
      }
      SpansOkGivesToksOk(ts[1..]);
      if !ts[0].Ch? {
        assert TokOk(Spans(ts)[0]);
      }
    }
  }

  // ------------------------------------------------------------- plain lines

  /** A line no Markdown renderer gives block meaning to. */
  predicate PlainParagraph(l: string) {
    l == "" || !Droppable(l[0])
  }

  lemma {:induction false} LinesAreLines(s: string)
    ensures forall i :: 0 <= i < |Lines(s)| ==> OneLine(Lines(s)[i])
  {
    if s != "" {
      LinesAreLines(s[1..]);
    }
  }

  lemma {:induction false} DropLeadDrops(s: string)
    ensures DropLead(s) == "" || !Droppable(DropLead(s)[0])
    ensures OneLine(s) ==> OneLine(DropLead(s))
  {
    if s != "" {
      DropLeadDrops(s[1..]);
    }
  }

  predicate GoodParagraph(p: string) {
    p != "" && !Droppable(p[0]) && Quiet(p)
  }

  lemma {:induction false} ParagraphsAreGood(ls: seq<string>)
    requires forall i :: 0 <= i < |ls| ==> OneLine(ls[i])
    ensures forall i :: 0 <= i < |Paragraphs(ls)| ==> GoodParagraph(Paragraphs(ls)[i])
  {
    if ls != [] {
      DropLeadDrops(ls[0]);
      var t := DropLead(ls[0]);
      if t != "" {
        assert !Droppable(Neutral(t[0]));
        forall i | 0 <= i < |t| ensures Neutralized(t)[i] !in ['<', '&', '\n'] { }
      }
      ParagraphsAreGood(ls[1..]);
    }
  }

  lemma {:induction false} JoinedLines(ps: seq<string>)
    requires forall i :: 0 <= i < |ps| ==> GoodParagraph(ps[i])
    ensures forall i :: 0 <= i < |Lines(JoinParagraphs(ps))| ==> PlainParagraph(Lines(JoinParagraphs(ps))[i])
    ensures forall i :: 0 <= i < |JoinParagraphs(ps)| ==> JoinParagraphs(ps)[i] !in ['<', '&']
  {
    if |ps| == 1 {
      LinesPrepend(ps[0], "");
      assert ps[0] + "" == ps[0];
    } else if |ps| > 1 {
      var rest := JoinParagraphs(ps[1..]);
      JoinedLines(ps[1..]);
      assert JoinParagraphs(ps) == ps[0] + ("\n\n" + rest);
      assert ("\n\n" + rest)[1..] == "\n" + rest && ("\n" + rest)[1..] == rest;
      assert Lines("\n" + rest) == [""] + Lines(rest);
      assert Lines("\n\n" + rest) == [""] + Lines("\n" + rest);
      LinesPrepend(ps[0], "\n\n" + rest);
      assert ps[0] + "" == ps[0];
    }
  }

  predicate IsPlain(s: string) {
    && (forall i :: 0 <= i < |Lines(s)| ==> PlainParagraph(Lines(s)[i]))
    && (forall i :: 0 <= i < |s| ==> s[i] !in ['<', '&'])
  }

  /** Whatever it is given, flattening leaves plain paragraphs. */
  lemma FlattenedIsPlain(out: string)
    ensures IsPlain(Flattened(out))
  {
    LinesAreLines(out);
    ParagraphsAreGood(Lines(out));
    JoinedLines(Paragraphs(Lines(out)));
  }

  /** No line of a stored narrative opens a heading, list, quote, table, fence
      or rule, and no tag or entity can start anywhere in it. */
  lemma NarrativeIsPlain(raw: string, fs: seq<Fact>, titles: seq<string>, numeric: char -> bool)
    ensures Filled(raw, fs, titles, numeric).Ok? ==> IsPlain(Filled(raw, fs, titles, numeric).value)
  {
    if Filled(raw, fs, titles, numeric).Ok? {
      FlattenedIsPlain(TextOf(Rendered(Normalized(raw), fs, titles, numeric).value));
    }
  }

  // -------------------------------------------------------- keys round-trip

  /** Every key the prompt shows resolves to what it was printed for, and no
      other string resolves at all. */
  lemma KeysRoundTrip(d: Draft, titles: seq<string>, key: string)
    requires |Entries(d)| <= USIZE_MAX && |titles| <= USIZE_MAX
    ensures var fs := Keyed(Entries(d));
            && (forall n :: 1 <= n <= |fs| && key == ['f'] + Decimal.Print(n) ==> Resolve(key, fs, titles) == Some(Unit(fs[n - 1])))
            && (forall n :: 1 <= n <= |titles| && key == ['t'] + Decimal.Print(n) ==> Resolve(key, fs, titles) == Some(Title(titles[n - 1])))
            && (Resolve(key, fs, titles).Some? ==>
                  exists n :: 1 <= n && ((n <= |fs| && key == ['f'] + Decimal.Print(n))
                                         || (n <= |titles| && key == ['t'] + Decimal.Print(n))))
  {
    hide *;
    var fs := Keyed(Entries(d));
    forall n | 1 <= n <= |fs| && key == ['f'] + Decimal.Print(n) ensures Resolve(key, fs, titles) == Some(Unit(fs[n - 1])) {
      FactResolves(Entries(d), titles, key, n);
    }
    forall n | 1 <= n <= |titles| && key == ['t'] + Decimal.Print(n) ensures Resolve(key, fs, titles) == Some(Title(titles[n - 1])) {
      TitleResolves(fs, titles, key, n);
    }
    if Resolve(key, fs, titles).Some? {
      var n := OnlyPrintedResolves(Entries(d), titles, key);
    }
  }

  lemma FactResolves(entries: seq<(string, string)>, titles: seq<string>, key: string, n: nat)
    requires 1 <= n <= |entries| <= USIZE_MAX && key == ['f'] + Decimal.Print(n)
    ensures Resolve(key, Keyed(entries), titles) == Some(Unit(Keyed(entries)[n - 1]))
  {
    ParseKeyExact(key, FactKey, n);
    KeysDistinct(entries, n - 1);
    hide ParseKey, FindFact, Decimal.Print;
    assert Keyed(entries)[n - 1].key == key;
  }

  lemma TitleResolves(fs: seq<Fact>, titles: seq<string>, key: string, n: nat)
    requires 1 <= n <= |titles| <= USIZE_MAX && key == ['t'] + Decimal.Print(n)
    ensures Resolve(key, fs, titles) == Some(Title(titles[n - 1]))
  {
    ParseKeyExact(key, TitleKey, n);
    hide ParseKey, Decimal.Print;
  }

  lemma OnlyPrintedResolves(entries: seq<(string, string)>, titles: seq<string>, key: string) returns (n: nat)
    requires Resolve(key, Keyed(entries), titles).Some?
    ensures 1 <= n && ((n <= |entries| && key == ['f'] + Decimal.Print(n)) || (n <= |titles| && key == ['t'] + Decimal.Print(n)))
  {
    var fs, parsed := Keyed(entries), ParseKey(key).value;
    ParseKeyExact(key, parsed.0, parsed.1);
    hide ParseKey, FindFact, Decimal.Print;
    n := parsed.1;
    if parsed.0 == FactKey {
      var f := FindFact(fs, key).value;
      var j :| 0 <= j < |fs| && fs[j] == f;
      n := j + 1;
      assert key == "f" + Decimal.Print(j + 1);
    }
  }
}
