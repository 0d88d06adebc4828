/** Which narratives are accepted, what each accepted one becomes and what each
    refusal means, stated of the text alone. */
module NarrativeAccepts {
  import opened Prelude
  import opened Cron
  import opened Text
  import opened Facts
  import opened Narrative
  import opened NarrativeSafety
  import opened NarrativeTheorems

  // ----------------------------------------------------------- how it is read

  /** A narrative read from the left: literals, and keys in double braces; `Cut`
      has a last pair of braces nobody closed. */
  datatype Form = Last(lit: string) | Cut(lit: string, rest: string) | Slot(lit: string, key: string, next: Form)

  function Wrote(f: Form): string {
    match f
    case Last(lit) => lit
    case Cut(lit, rest) => lit + ("{{" + rest)
    case Slot(lit, key, next) => lit + ("{{" + (key + ("}}" + Wrote(next))))
  }

  predicate NoPair(s: string, c: char) {
    forall i :: 0 <= i < |s| - 1 ==> !(s[i] == c && s[i + 1] == c)
  }

  /** Braces open and close where they first stand twice in a row. */
  predicate Well(f: Form) {
    match f
    case Last(lit) => NoPair(lit, '{')
    case Cut(lit, rest) => NoPair(lit + "{", '{') && NoPair(rest, '}')
    case Slot(lit, key, next) => NoPair(lit + "{", '{') && NoPair(key + "}", '}') && Well(next)
  }

  lemma FindsFirst(a: string, b: string, c: char)
    requires NoPair(a + [c], c)
    ensures FindPair(a + ([c, c] + b), c) == Some(|a|)
  {
    var s := a + ([c, c] + b);
    assert s[|a|] == c && s[|a| + 1] == c;
    assert forall i :: 0 <= i <= |a| ==> (a + [c])[i] == s[i];
    forall i | 0 <= i < |a| ensures !(s[i] == c && s[i + 1] == c) {
      assert (a + [c])[i] == s[i] && (a + [c])[i + 1] == s[i + 1];
    }
    assert FindPair(s, c).Some?;
  }

  lemma FindsNone(s: string, c: char)
    requires NoPair(s, c)
    ensures FindPair(s, c).None?
  {
  }

  lemma FoundFirst(s: string, c: char)
    requires FindPair(s, c).Some?
    ensures var at := FindPair(s, c).value;
            NoPair(s[..at] + [c], c) && s == s[..at] + ([c, c] + s[at + 2..])
  {
    var at := FindPair(s, c).value;
    hide *;
    var front := s[..at] + [c];
    assert forall i :: 0 <= i <= at ==> front[i] == s[i];
    PairSplits(s, at, c);
  }

  lemma PairSplits(s: string, at: nat, c: char)
    requires at + 2 <= |s| && s[at] == c && s[at + 1] == c
    ensures s == s[..at] + ([c, c] + s[at + 2..])
  {
  }

  lemma SlotIs(lit: string, key: string, next: Form, after: string, s: string)
    requires NoPair(lit + "{", '{') && NoPair(key + "}", '}') && Well(next)
    requires s == lit + ("{{" + after) && after == key + ("}}" + Wrote(next))
    ensures Well(Slot(lit, key, next)) && Wrote(Slot(lit, key, next)) == s
  {
    hide NoPair;
  }

  lemma CutIs(lit: string, rest: string, s: string)
    requires NoPair(lit + "{", '{') && NoPair(rest, '}') && s == lit + ("{{" + rest)
    ensures Well(Cut(lit, rest)) && Wrote(Cut(lit, rest)) == s
  {
    hide NoPair;
  }

  /** Every text can be read so. */
  lemma {:induction false} EveryTextReads(s: string) returns (f: Form)
    ensures Well(f) && Wrote(f) == s
    decreases |s|
  {
    hide FindPair, Wrote, NoPair;
    var open := FindPair(s, '{');
    if open.None? {
      NonePairs(s, '{');
      LastIs(s);
      return Last(s);
    }
    FoundFirst(s, '{');
    var lit, after := s[..open.value], s[open.value + 2..];
    var close := FindPair(after, '}');
    if close.None? {
      NonePairs(after, '}');
      CutIs(lit, after, s);
      return Cut(lit, after);
    }
    FoundFirst(after, '}');
    var key, rest := after[..close.value], after[close.value + 2..];
    var next := EveryTextReads(rest);
    SlotIs(lit, key, next, after, s);
    f := Slot(lit, key, next);
  }

  lemma NonePairs(s: string, c: char)
    requires FindPair(s, c).None?
    ensures NoPair(s, c)
  {
  }

  lemma LastIs(s: string)
    requires NoPair(s, '{')
    ensures Well(Last(s)) && Wrote(Last(s)) == s
  {
    hide NoPair;
  }

  // ------------------------------------------------------------- what is fine

  const NUMERALS: string := "〇零一二两三四五六七八九十百千万亿壹贰叁肆伍陆柒捌玖拾佰仟萬兩貳參陸億廿卅卌"

  predicate ComesNext(m: string, r: string) {
    IsMeasure(m) && (m <= r || " " + m <= r)
  }

  /** A measure word comes next, directly or after one space. */
  ghost predicate MeasureNext(r: string) {
    exists m :: ComesNext(m, r)
  }

  predicate IsMeasure(m: string) {
    m in {"小时", "分钟", "个", "件", "次", "项", "天", "周", "%", "％", "倍", "成"}
  }

  /** No numeral has a measure word behind it. */
  ghost predicate NoneCounted(s: string) {
    forall i :: 0 <= i < |s| && s[i] in NUMERALS ==> !MeasureNext(s[i + 1..])
  }

  ghost predicate CleanLiteral(s: string, numeric: char -> bool) {
    (forall i :: 0 <= i < |s| ==> !numeric(s[i]) && s[i] !in "〔〕「」") && NoneCounted(s)
  }

  predicate CountsHere(s: string, i: nat, j: nat, m: string, text: string) {
    i < j <= |s| && (forall k :: i <= k < j ==> s[k] in NUMERALS) && ComesNext(m, s[j..]) && text == s[i..j] + m
  }

  /** The refusal names numerals of `s` and the measure word behind them. */
  ghost predicate CountsAt(s: string, e: NarrativeError) {
    e.CjkNumeralWithMeasure? && exists i: nat, j: nat, m :: CountsHere(s, i, j, m, e.text)
  }

  /** The refusal names something wrong with this literal. */
  ghost predicate BlamesLiteral(s: string, e: NarrativeError, numeric: char -> bool) {
    match e
    case LiteralDigit(c) => c in s && numeric(c)
    case ReservedBracket(c) => c in s && c in "〔〕「」"
    case _ => CountsAt(s, e)
  }

  /** `key` stands for `text`: a fact's unit, or a task's title. */
  predicate StandsFor(key: string, n: nat, text: string, fs: seq<Fact>, titles: seq<string>) {
    || (1 <= n <= |fs| && key == "f" + Decimal.Print(n)
        && text == "〔" + fs[n - 1].caption + "：" + fs[n - 1].value + "〕")
    || (1 <= n <= |titles| && key == "t" + Decimal.Print(n) && text == "「" + Sanitized(titles[n - 1]) + "」")
  }

  ghost predicate Stands(key: string, fs: seq<Fact>, titles: seq<string>) {
    exists n, text :: StandsFor(key, n, text, fs, titles)
  }

  /** Closed, its literals clean, its keys known, and no unit before a measure word. */
  ghost predicate Acceptable(f: Form, fs: seq<Fact>, titles: seq<string>, numeric: char -> bool) {
    match f
    case Last(lit) => CleanLiteral(lit, numeric)
    case Cut(_, _) => false
    case Slot(lit, key, next) =>
      && CleanLiteral(lit, numeric) && Stands(key, fs, titles)
      && ("f" <= key ==> !MeasureNext(Wrote(next)))
      && Acceptable(next, fs, titles, numeric)
  }

  /** `text` is `f` with every key replaced by what it stands for. */
  ghost predicate Reads(f: Form, text: string, fs: seq<Fact>, titles: seq<string>) {
    match f
    case Last(lit) => text == lit
    case Cut(_, _) => false
    case Slot(lit, key, next) =>
      exists n, shown, tail :: StandsFor(key, n, shown, fs, titles) && Reads(next, tail, fs, titles)
                               && text == lit + (shown + tail)
  }

  /** The refusal names something wrong with one of the parts of `f`. */
  ghost predicate Blames(f: Form, e: NarrativeError, fs: seq<Fact>, titles: seq<string>, numeric: char -> bool) {
    match f
    case Last(lit) => BlamesLiteral(lit, e, numeric)
    case Cut(lit, _) => BlamesLiteral(lit, e, numeric) || e == Unterminated
    case Slot(lit, key, next) =>
      || BlamesLiteral(lit, e, numeric)
      || (e == UnknownPlaceholder(key) && !Stands(key, fs, titles))
      || ("f" <= key && BlamesUnit(key, Wrote(next), e))
      || Blames(next, e, fs, titles, numeric)
  }

  ghost predicate BlamesUnit(key: string, next: string, e: NarrativeError) {
    exists m :: ComesNext(m, next) && e == MeasureAfterUnit("{{" + key + "}}" + m)
  }

  /** `word` is spelt out from here on, whatever whitespace stands in between. */
  predicate Spells(s: string, word: string) {
    || word == ""
    || (s != "" && ((s[0] == word[0] && Spells(s[1..], word[1..])) || (IsWhitespace(s[0]) && Spells(s[1..], word))))
  }

  predicate Mentions(s: string, word: string) {
    Spells(s, word) || (s != "" && Mentions(s[1..], word))
  }

  ghost predicate FineWhole(raw: string) {
    && (forall i :: 0 <= i < |raw| ==> !IsForbiddenControl(raw[i]))
    && (exists i :: 0 <= i < |Normalized(raw)| && !IsWhitespace(Normalized(raw)[i]))
    && |Normalized(raw)| <= 2000
    && !Mentions(Normalized(raw), "本周数字")
  }

  // ------------------------------------------------------------------- proofs

  lemma NumeralsAre(c: char)
    ensures IsCjkNumeral(c) <==> c in NUMERALS
  {
    var i := if c in NUMERALS then var i :| 0 <= i < |NUMERALS| && NUMERALS[i] == c; i else 0;
  }

  lemma MeasuresAre(r: string)
    ensures MeasureAt(r).Some? <==> MeasureNext(r)
    ensures MeasureAt(r).Some? ==> ComesNext(MeasureAt(r).value, r)
  {
    MeasureAtIff(r);
    MeasureAtSays(r);
    hide MeasureAt, SkipSpace, ComesNext;
    if MeasureNext(r) {
      var m :| ComesNext(m, r);
      MeasureIsAhead(r, m);
      var k := ListedMeasure(m);
    }
  }

  lemma MeasureAtSays(r: string)
    ensures MeasureAt(r).Some? ==> ComesNext(MeasureAt(r).value, r)
  {
    FirstMeasureIsOne(SkipSpace(r), 0);
    hide IsMeasure, FirstMeasure;
    if MeasureAt(r).Some? && r != "" && r[0] == ' ' {
      assert r == " " + r[1..];
      assert " " + MeasureAt(r).value <= r;
    }
  }

  lemma MeasureIsAhead(r: string, m: string)
    requires ComesNext(m, r)
    ensures IsMeasure(m) && m <= SkipSpace(r)
  {
    var k := ListedMeasure(m);
    NoMeasureOpensWithSpace(k);
    hide IsMeasure;
    if !(m <= r) {
      var front := " " + m;
      assert r == front + r[|front|..] && front[0] == ' ' && front[1..] == m;
      assert r[1..] == m + r[|front|..];
    } else {
      assert r[0] == m[0];
    }
  }

  lemma MeasureListed(k: nat)
    requires k < |MEASURE|
    ensures IsMeasure(MEASURE[k])
  {
  }

  lemma ListedMeasure(m: string) returns (k: nat)
    requires IsMeasure(m)
    ensures k < |MEASURE| && MEASURE[k] == m
  {
    var all := MEASURE;
    assert all[0] == "小时" && all[1] == "分钟" && all[2] == "个" && all[3] == "件" && all[4] == "次" && all[5] == "项";
    assert all[6] == "天" && all[7] == "周" && all[8] == "%" && all[9] == "％" && all[10] == "倍" && all[11] == "成";
    k :| 0 <= k < |all| && all[k] == m;
  }

  lemma NoMeasureOpensWithSpace(k: nat)
    requires k < |MEASURE|
    ensures MEASURE[k] != "" && MEASURE[k][0] != ' '
  {
  }

  lemma FirstMeasureIsOne(r: string, k: nat)
    requires k <= |MEASURE|
    ensures FirstMeasure(r, k).Some? ==> IsMeasure(FirstMeasure(r, k).value) && FirstMeasure(r, k).value <= r
    decreases |MEASURE| - k
  {
    if k < |MEASURE| {
      MeasureListed(k);
      FirstMeasureIsOne(r, k + 1);
    }
  }

  /** A refused literal holds a run of numerals with a measure word behind it. */
  lemma {:induction false} RunsRefuse(s: string, i: nat) returns (p: nat)
    requires i <= |s| && RunsFrom(s, i).Err?
    ensures i <= p < |s| && IsCjkNumeral(s[p]) && MeasureAt(s[p + 1..]).Some?
    ensures RunsFrom(s, i).error.CjkNumeralWithMeasure? && CountsAt(s, RunsFrom(s, i).error)
    decreases |s| - i
  {
    hide MeasureAt, IsCjkNumeral, CountsAt;
    if !IsCjkNumeral(s[i]) {
      p := RunsRefuse(s, i + 1);
    } else {
      var j := RunEnd(s, i + 1);
      if MeasureAt(Ahead(s, j)).None? {
        p := RunsRefuse(s, j);
      } else {
        p := j - 1;
        AheadIsAhead(s, j);
        BlamesRun(s, i, j, MeasureAt(Ahead(s, j)).value);
      }
    }
  }

  lemma AheadIsAhead(s: string, j: nat)
    requires j <= |s| && MeasureAt(Ahead(s, j)).Some?
    ensures MeasureAt(s[j..]).Some? && ComesNext(MeasureAt(Ahead(s, j)).value, s[j..])
  {
    var a := Ahead(s, j);
    MeasuresAre(a);
    hide MeasureAt, IsMeasure;
    var b := s[j + |a|..];
    assert s[j..] == a + b;
    MeasureGrows(a, b);
    var m := MeasureAt(a).value;
    if m <= a {
      PrefixGrows(m, a, b);
    } else {
      PrefixGrows(" " + m, a, b);
    }
  }

  lemma PrefixGrows(p: string, a: string, b: string)
    requires p <= a
    ensures p <= a + b
  {
  }

  lemma BlamesRun(s: string, i: nat, j: nat, m: string)
    requires i < j <= |s| && (forall k :: i <= k < j ==> IsCjkNumeral(s[k])) && ComesNext(m, s[j..])
    ensures CountsAt(s, CjkNumeralWithMeasure(s[i..j] + m))
  {
    hide IsCjkNumeral, ComesNext;
    forall k | i <= k < j ensures s[k] in NUMERALS {
      NumeralsAre(s[k]);
    }
    assert CountsHere(s, i, j, m, s[i..j] + m);
  }

  lemma {:induction false} FirstsAre(s: string, numeric: char -> bool)
    ensures FirstNumeric(s, numeric).Some? ==> FirstNumeric(s, numeric).value in s && numeric(FirstNumeric(s, numeric).value)
    ensures FirstReserved(s).Some? ==> FirstReserved(s).value in s && FirstReserved(s).value in "〔〕「」"
    ensures FirstReserved(s).None? ==> forall i :: 0 <= i < |s| ==> s[i] !in "〔〕「」"
  {
    ReservedAre();
    if s != "" {
      FirstsAre(s[1..], numeric);
    }
  }

  lemma ReservedAre()
    ensures RESERVED == "〔〕「」"
  {
  }

  lemma RunsExactly(s: string)
    ensures RunsFrom(s, 0).Ok? <==> NoneCounted(s)
  {
    forall i | 0 <= i < |s| ensures IsCjkNumeral(s[i]) <==> s[i] in NUMERALS {
      NumeralsAre(s[i]);
    }
    forall r: string ensures MeasureAt(r).Some? <==> MeasureNext(r) {
      MeasuresAre(r);
    }
    hide MeasureAt, MeasureNext, IsCjkNumeral, RunsFrom, CountsAt;
    if RunsFrom(s, 0).Ok? {
      forall i | 0 <= i < |s| && s[i] in NUMERALS ensures !MeasureNext(s[i + 1..]) {
        RunsAreClean(s, 0, i);
      }
    } else {
      var p := RunsRefuse(s, 0);
    }
  }

  lemma LiteralExactly(s: string, numeric: char -> bool)
    ensures CheckedLiteral(s, numeric).Ok? <==> CleanLiteral(s, numeric)
    ensures CheckedLiteral(s, numeric).Err? ==> BlamesLiteral(s, CheckedLiteral(s, numeric).error, numeric)
  {
    FirstsAre(s, numeric);
    RunsExactly(s);
    hide RunsFrom, NoneCounted, FirstReserved, FirstNumeric, CountsAt;
    if RunsFrom(s, 0).Err? {
      var p := RunsRefuse(s, 0);
    }
  }

  // ----------------------------------------------------------------- a key

  /** A key resolves exactly if it stands for something, and to just that. */
  lemma KeyStands(key: string, d: Draft, titles: seq<string>) returns (n: nat)
    requires |Entries(d)| <= USIZE_MAX && |titles| <= USIZE_MAX
    ensures var fs := Keyed(Entries(d));
            && (Resolve(key, fs, titles).Some? <==> Stands(key, fs, titles))
            && (Resolve(key, fs, titles).Some? ==>
                  && StandsFor(key, n, TokText(Resolve(key, fs, titles).value), fs, titles)
                  && (Resolve(key, fs, titles).value.Unit? <==> "f" <= key))
  {
    var fs := Keyed(Entries(d));
    KeysRoundTrip(d, titles, key);
    hide Resolve, Keyed, Entries, Sanitized, Decimal.Print;
    n := 0;
    if Resolve(key, fs, titles).Some? {
      n :| 1 <= n && ((n <= |fs| && key == ['f'] + Decimal.Print(n)) || (n <= |titles| && key == ['t'] + Decimal.Print(n)));
      KeyShows(key, n, fs, titles, Resolve(key, fs, titles).value);
    }
  }

  lemma KeyShows(key: string, n: nat, fs: seq<Fact>, titles: seq<string>, tok: Tok)
    requires || (1 <= n <= |fs| && key == ['f'] + Decimal.Print(n) && tok == Unit(fs[n - 1]))
             || (1 <= n <= |titles| && key == ['t'] + Decimal.Print(n) && tok == Title(titles[n - 1]))
    ensures StandsFor(key, n, TokText(tok), fs, titles) && (tok.Unit? <==> "f" <= key)
  {
    hide Sanitized, Decimal.Print;
    if tok.Unit? {
      assert key[0] == 'f';
      assert RenderUnit(tok.fact) == "〔" + tok.fact.caption + "：" + tok.fact.value + "〕";
    } else {
      assert key[0] == 't' && RenderTitle(tok.title) == "「" + Sanitized(tok.title) + "」";
    }
  }

  // -------------------------------------------------------------- the reading

  lemma Cuts(lit: string, pair: string, after: string)
    requires |pair| == 2
    ensures var s := lit + (pair + after);
            |s| == |lit| + 2 + |after| && s[..|lit|] == lit && s[|lit| + 2..] == after
  {
  }

  /** One step of the reading of a text with a slot in it. */
  lemma SlotSplits(lit: string, key: string, tail: string)
    requires NoPair(lit + "{", '{') && NoPair(key + "}", '}')
    ensures var after := key + ("}}" + tail);
            var s := lit + ("{{" + after);
            && FindPair(s, '{') == Some(|lit|) && s[..|lit|] == lit && s[|lit| + 2..] == after
            && FindPair(after, '}') == Some(|key|) && after[..|key|] == key && after[|key| + 2..] == tail
  {
    hide *;
    var after := key + ("}}" + tail);
    FindsFirst(lit, after, '{');
    FindsFirst(key, tail, '}');
    Cuts(lit, "{{", after);
    Cuts(key, "}}", tail);
    assert ['{', '{'] == "{{" && ['}', '}'] == "}}" && ['{'] == "{" && ['}'] == "}";
  }

  lemma CutSplits(lit: string, rest: string)
    requires NoPair(lit + "{", '{') && NoPair(rest, '}')
    ensures var s := lit + ("{{" + rest);
            && FindPair(s, '{') == Some(|lit|) && s[..|lit|] == lit && s[|lit| + 2..] == rest
            && FindPair(rest, '}').None?
  {
    hide *;
    FindsFirst(lit, rest, '{');
    FindsNone(rest, '}');
    Cuts(lit, "{{", rest);
    assert ['{', '{'] == "{{" && ['{'] == "{";
  }

  lemma PieceOfSlot(f: Form, fs: seq<Fact>, titles: seq<string>, numeric: char -> bool)
    requires f.Slot? && Well(f)
    ensures NextPiece(Wrote(f), fs, titles, numeric) ==
              var checked, tok := CheckedLiteral(f.lit, numeric), Resolve(f.key, fs, titles);
              if checked.Err? then Err(checked.error)
              else if tok.None? then Err(UnknownPlaceholder(f.key))
              else if tok.value.Unit? && MeasureAt(Wrote(f.next)).Some? then
                Err(MeasureAfterUnit("{{" + f.key + "}}" + MeasureAt(Wrote(f.next)).value))
              else Ok(Hole(f.lit, tok.value, Wrote(f.next)))
  {
    SlotSplits(f.lit, f.key, Wrote(f.next));
    SlotWrote(f);
    PieceAt(Wrote(f), f.lit, f.key + ("}}" + Wrote(f.next)), f.key, Wrote(f.next), fs, titles, numeric);
    hide *;
  }

  lemma PieceAt(s: string, lit: string, after: string, key: string, next: string,
                fs: seq<Fact>, titles: seq<string>, numeric: char -> bool)
    requires FindPair(s, '{') == Some(|lit|) && s[..|lit|] == lit && s[|lit| + 2..] == after
    requires FindPair(after, '}') == Some(|key|) && after[..|key|] == key && after[|key| + 2..] == next
    ensures NextPiece(s, fs, titles, numeric) ==
              var checked, tok := CheckedLiteral(lit, numeric), Resolve(key, fs, titles);
              if checked.Err? then Err(checked.error)
              else if tok.None? then Err(UnknownPlaceholder(key))
              else if tok.value.Unit? && MeasureAt(next).Some? then
                Err(MeasureAfterUnit("{{" + key + "}}" + MeasureAt(next).value))
              else Ok(Hole(lit, tok.value, next))
  {
    hide CheckedLiteral, Resolve, MeasureAt, FindPair;
  }

  lemma SlotWrote(f: Form)
    requires f.Slot?
    ensures Wrote(f) == f.lit + ("{{" + (f.key + ("}}" + Wrote(f.next))))
  {
  }

  ghost predicate SlotFine(f: Form, fs: seq<Fact>, titles: seq<string>, numeric: char -> bool)
    requires f.Slot?
  {
    && CleanLiteral(f.lit, numeric) && Stands(f.key, fs, titles)
    && ("f" <= f.key ==> !MeasureNext(Wrote(f.next)))
  }

  lemma SlotPiece(f: Form, d: Draft, titles: seq<string>, numeric: char -> bool) returns (n: nat)
    requires f.Slot? && Well(f) && |Entries(d)| <= USIZE_MAX && |titles| <= USIZE_MAX
    ensures var fs := Keyed(Entries(d));
            var piece := NextPiece(Wrote(f), fs, titles, numeric);
            && (piece.Ok? <==> SlotFine(f, fs, titles, numeric))
            && (piece.Ok? ==> piece.value.Hole? && piece.value.lit == f.lit && piece.value.next == Wrote(f.next)
                              && StandsFor(f.key, n, TokText(piece.value.tok), fs, titles))
            && (piece.Err? ==> Blames(f, piece.error, fs, titles, numeric))
  {
    var fs := Keyed(Entries(d));
    PieceOfSlot(f, fs, titles, numeric);
    LiteralExactly(f.lit, numeric);
    n := KeyStands(f.key, d, titles);
    MeasuresAre(Wrote(f.next));
    SlotBlames(f, fs, titles, numeric);
    hide NextPiece, CheckedLiteral, CleanLiteral, BlamesLiteral, Resolve, Stands, StandsFor, MeasureAt, MeasureNext, ComesNext,
         Keyed, Entries, Blames, TokText, Well, Wrote, BlamesUnit;
  }

  lemma SlotBlames(f: Form, fs: seq<Fact>, titles: seq<string>, numeric: char -> bool)
    requires f.Slot?
    ensures forall e :: BlamesLiteral(f.lit, e, numeric) ==> Blames(f, e, fs, titles, numeric)
    ensures !Stands(f.key, fs, titles) ==> Blames(f, UnknownPlaceholder(f.key), fs, titles, numeric)
    ensures forall m :: "f" <= f.key && ComesNext(m, Wrote(f.next)) ==>
              Blames(f, MeasureAfterUnit("{{" + f.key + "}}" + m), fs, titles, numeric)
    ensures forall e :: Blames(f.next, e, fs, titles, numeric) ==> Blames(f, e, fs, titles, numeric)
  {
    hide BlamesLiteral, Stands, ComesNext, Wrote;
  }

  lemma CutPiece(f: Form, fs: seq<Fact>, titles: seq<string>, numeric: char -> bool)
    requires f.Cut? && Well(f)
    ensures NextPiece(Wrote(f), fs, titles, numeric).Err?
    ensures Blames(f, NextPiece(Wrote(f), fs, titles, numeric).error, fs, titles, numeric)
  {
    CutSplits(f.lit, f.rest);
    LiteralExactly(f.lit, numeric);
    hide CheckedLiteral, BlamesLiteral, CleanLiteral, Resolve, FindPair, NoPair;
  }

  lemma LastPiece(f: Form, fs: seq<Fact>, titles: seq<string>, numeric: char -> bool)
    requires f.Last? && Well(f)
    ensures NextPiece(Wrote(f), fs, titles, numeric) == Ok(Tail)
  {
    FindsNone(f.lit, '{');
    hide CheckedLiteral, Resolve, FindPair, NoPair;
  }

  lemma RenderedIs(rest: string, fs: seq<Fact>, titles: seq<string>, numeric: char -> bool)
    ensures var piece, r := NextPiece(rest, fs, titles, numeric), Rendered(rest, fs, titles, numeric);
            && (piece.Err? ==> r == Err(piece.error))
            && (piece == Ok(Tail) ==>
                  r == if CheckedLiteral(rest, numeric).Ok? then Ok(Chars(rest)) else Err(CheckedLiteral(rest, numeric).error))
            && (piece.Ok? && piece.value.Hole? ==>
                  r == After(Chars(piece.value.lit) + [piece.value.tok], Rendered(piece.value.next, fs, titles, numeric)))
  {
    hide NextPiece, CheckedLiteral;
  }

  lemma SlotText(lit: string, tok: Tok, ts: seq<Tok>)
    ensures TextOf((Chars(lit) + [tok]) + ts) == lit + (TokText(tok) + TextOf(ts))
  {
    hide *;
    RenderStep([], lit, tok);
    NoText();
    assert [] + (Chars(lit) + [tok]) == Chars(lit) + [tok] && "" + lit == lit;
    TextOfConcat(Chars(lit) + [tok], ts);
    assert (lit + TokText(tok)) + TextOf(ts) == lit + (TokText(tok) + TextOf(ts));
  }

  lemma NoText()
    ensures TextOf([]) == ""
  {
  }

  lemma SlotReads(f: Form, n: nat, shown: string, tail: string, fs: seq<Fact>, titles: seq<string>)
    requires f.Slot? && StandsFor(f.key, n, shown, fs, titles) && Reads(f.next, tail, fs, titles)
    ensures Reads(f, f.lit + (shown + tail), fs, titles)
  {
    hide StandsFor;
  }

  lemma SlotAcceptable(f: Form, fs: seq<Fact>, titles: seq<string>, numeric: char -> bool)
    requires f.Slot?
    ensures Acceptable(f, fs, titles, numeric) <==> SlotFine(f, fs, titles, numeric) && Acceptable(f.next, fs, titles, numeric)
  {
    hide CleanLiteral, Stands, MeasureNext;
  }

  lemma {:induction false} RenderedExactly(f: Form, d: Draft, titles: seq<string>, numeric: char -> bool)
    requires Well(f) && |Entries(d)| <= USIZE_MAX && |titles| <= USIZE_MAX
    ensures var fs := Keyed(Entries(d));
            var r := Rendered(Wrote(f), fs, titles, numeric);
            && (r.Ok? <==> Acceptable(f, fs, titles, numeric))
            && (r.Ok? ==> Reads(f, TextOf(r.value), fs, titles))
            && (r.Err? ==> Blames(f, r.error, fs, titles, numeric))
  {
    var fs := Keyed(Entries(d));
    RenderedIs(Wrote(f), fs, titles, numeric);
    match f
    case Last(lit) =>
      LastPiece(f, fs, titles, numeric);
      LiteralExactly(lit, numeric);
      TextOfChars(lit);
      hide Rendered, CheckedLiteral, CleanLiteral, BlamesLiteral, NextPiece, TextOf, Chars, Keyed, Entries;
    case Cut(_, _) =>
      CutPiece(f, fs, titles, numeric);
      hide Rendered, NextPiece, Blames, Wrote, Keyed, Entries;
    case Slot(lit, key, next) =>
      WellNext(f);
      RenderedExactly(next, d, titles, numeric);
      var n := SlotPiece(f, d, titles, numeric);
      SlotBlames(f, fs, titles, numeric);
      SlotAcceptable(f, fs, titles, numeric);
      hide *;
      var piece, tail := NextPiece(Wrote(f), fs, titles, numeric), Rendered(Wrote(next), fs, titles, numeric);
      if piece.Ok? {
        AfterIs(Chars(lit) + [piece.value.tok], tail);
        if tail.Ok? {
          SlotText(lit, piece.value.tok, tail.value);
          SlotReads(f, n, TokText(piece.value.tok), TextOf(tail.value), fs, titles);
        }
      }
  }

  lemma WellNext(f: Form)
    requires f.Slot? && Well(f)
    ensures Well(f.next)
  {
    hide NoPair;
  }

  lemma AfterIs(done: seq<Tok>, rest: Result<seq<Tok>, NarrativeError>)
    ensures After(done, rest) == if rest.Err? then Err(rest.error) else Ok(done + rest.value)
  {
  }

  // ---------------------------------------------------------- the whole text

  lemma {:induction false} SquashedSpells(s: string, word: string)
    requires NoWhitespace(word)
    ensures word <= Squashed(s) <==> Spells(s, word)
  {
    if word != "" && s != "" {
      if IsWhitespace(s[0]) {
        SquashedSpells(s[1..], word);
        assert s[0] != word[0] && "" + Squashed(s[1..]) == Squashed(s[1..]);
      } else {
        SquashedSpells(s[1..], word[1..]);
        PrefixHead(word, s[0], Squashed(s[1..]));
      }
    }
  }

  lemma PrefixHead(word: string, c: char, rest: string)
    requires word != ""
    ensures word <= [c] + rest <==> word[0] == c && word[1..] <= rest
  {
    if word[0] == c && word[1..] <= rest {
      assert word == [c] + word[1..] && rest == word[1..] + rest[|word| - 1..];
      assert [c] + rest == word + rest[|word| - 1..];
    }
    if word <= [c] + rest {
      assert ([c] + rest)[1..] == rest && ([c] + rest)[..|word|] == word;
      assert rest[..|word| - 1] == word[1..];
    }
  }

  lemma {:induction false} MentionedExactly(s: string, word: string)
    requires NoWhitespace(word) && word != ""
    ensures Contains(Squashed(s), word) <==> Mentions(s, word)
  {
    SquashedSpells(s, word);
    if s != "" {
      MentionedExactly(s[1..], word);
      SquashedSpells(s[1..], word);
      SquashedHead(s);
      hide Spells, Squashed;
      if IsWhitespace(s[0]) {
        ContainsMore(Squashed(s), word);
      }
    }
  }

  lemma SquashedHead(s: string)
    requires s != ""
    ensures IsWhitespace(s[0]) ==> Squashed(s) == Squashed(s[1..])
    ensures !IsWhitespace(s[0]) ==> Squashed(s) != "" && Squashed(s)[1..] == Squashed(s[1..])
  {
    assert "" + Squashed(s[1..]) == Squashed(s[1..]);
  }

  lemma ContainsMore(s: string, word: string)
    ensures word <= s ==> Contains(s, word)
  {
  }

  lemma {:induction false} ForbiddenIs(s: string)
    ensures FirstForbidden(s).None? <==> forall i :: 0 <= i < |s| ==> !IsForbiddenControl(s[i])
    ensures FirstForbidden(s).Some? ==> FirstForbidden(s).value in s && IsForbiddenControl(FirstForbidden(s).value)
  {
    hide IsForbiddenControl;
    if s != "" {
      ForbiddenIs(s[1..]);
      assert forall i :: 0 <= i < |s| - 1 ==> s[1..][i] == s[i + 1];
    }
  }

  /** The checks on the whole text pass exactly the fine ones, and a refusal is true. */
  lemma WholeExactly(raw: string)
    ensures Precheck(raw).Ok? <==> FineWhole(raw)
    ensures Precheck(raw).Ok? ==> Precheck(raw).value == Normalized(raw)
    ensures Precheck(raw).Err? ==> BlamesWhole(raw, Precheck(raw).error)
  {
    ForbiddenIs(raw);
    HeadingWord();
    MentionedExactly(Normalized(raw), "本周数字");
    hide Normalized, Squashed, Contains, Mentions, IsForbiddenControl, FirstForbidden, IsWhitespace;
  }

  lemma HeadingWord()
    ensures NoWhitespace("本周数字") && FACTS_HEADING_WORD == "本周数字"
  {
  }

  ghost predicate BlamesWhole(raw: string, e: NarrativeError) {
    match e
    case ForbiddenControl(c) => c in raw && IsForbiddenControl(c)
    case Empty => forall i :: 0 <= i < |Normalized(raw)| ==> IsWhitespace(Normalized(raw)[i])
    case TooLong => |Normalized(raw)| > 2000
    case MentionsFactsHeading => Mentions(Normalized(raw), "本周数字")
    case _ => false
  }

  /** A narrative is accepted exactly if the whole of it is fine and every part of it
      acceptable. What is kept is its text with every key replaced by what it stands
      for, flattened; and a refusal names something that is wrong with it. */
  lemma AcceptedExactly(raw: string, f: Form, d: Draft, titles: seq<string>, numeric: char -> bool)
    requires Well(f) && Wrote(f) == Normalized(raw) && |Entries(d)| <= USIZE_MAX && |titles| <= USIZE_MAX
    ensures var fs := Keyed(Entries(d));
            var r := Filled(raw, fs, titles, numeric);
            && (r.Ok? <==> FineWhole(raw) && Acceptable(f, fs, titles, numeric))
            && (r.Ok? ==> exists text :: Reads(f, text, fs, titles) && r.value == Flattened(text))
            && (r.Err? ==> BlamesWhole(raw, r.error) || Blames(f, r.error, fs, titles, numeric))
  {
    WholeExactly(raw);
    RenderedExactly(f, d, titles, numeric);
    FilledIs(raw, Keyed(Entries(d)), titles, numeric);
    hide *;
  }

  lemma FilledIs(raw: string, fs: seq<Fact>, titles: seq<string>, numeric: char -> bool)
    ensures var pre, r := Precheck(raw), Filled(raw, fs, titles, numeric);
            && (pre.Err? ==> r == Err(pre.error))
            && (pre.Ok? ==> var ts := Rendered(pre.value, fs, titles, numeric);
                            r == if ts.Ok? then Ok(Flattened(TextOf(ts.value))) else Err(ts.error))
  {
    hide Precheck, Rendered, Flattened;
  }

  // ------------------------------------------------------------- flattening

  function JoinedBy(ls: seq<string>, gap: string): string {
    if ls == [] then "" else if |ls| == 1 then ls[0] else ls[0] + (gap + JoinedBy(ls[1..], gap))
  }

  /** A line's lead, whitespace and block markers only, and what stays of it. */
  predicate Leads(line: string, lead: string, kept: string) {
    && line == lead + kept
    && (forall i :: 0 <= i < |lead| ==> IsWhitespace(lead[i]) || lead[i] in "#-*+>|`~=_")
    && (kept != "" ==> !IsWhitespace(kept[0]) && kept[0] !in "#-*+>|`~=_")
  }

  function Inert(c: char): char {
    if c == '<' then '＜' else if c == '&' then '＆' else c
  }

  function InertLine(l: string): string {
    seq(|l|, i requires 0 <= i < |l| => Inert(l[i]))
  }

  function Shown(kept: seq<string>): seq<string> {
    if kept == [] then [] else (if kept[0] == "" then [] else [InertLine(kept[0])]) + Shown(kept[1..])
  }

  ghost predicate FlatOf(s: string, flat: string, ls: seq<string>, leads: seq<string>, kept: seq<string>) {
    && |ls| == |leads| == |kept| && JoinedBy(ls, "\n") == s
    && (forall i :: 0 <= i < |ls| ==> OneLine(ls[i]) && Leads(ls[i], leads[i], kept[i]))
    && flat == JoinedBy(Shown(kept), "\n\n")
  }

  lemma {:induction false} LinesJoin(s: string)
    ensures JoinedBy(Lines(s), "\n") == s
  {
    if s != "" {
      LinesJoin(s[1..]);
      var rest := Lines(s[1..]);
      if s[0] == '\n' {
        assert Lines(s)[1..] == rest;
        assert "" + ("\n" + s[1..]) == s;
      } else if |rest| > 1 {
        var tail := "\n" + JoinedBy(rest[1..], "\n");
        assert ([s[0]] + rest[0]) + tail == [s[0]] + (rest[0] + tail);
      }
    }
  }

  lemma {:induction false} LeadOf(l: string) returns (lead: string)
    ensures Leads(l, lead, DropLead(l))
  {
    lead := "";
    if l != "" && Droppable(l[0]) {
      MarkersAre(l[0]);
      var more := LeadOf(l[1..]);
      lead := [l[0]] + more;
      assert l == [l[0]] + l[1..] == lead + DropLead(l[1..]);
    } else if l != "" {
      MarkersAre(l[0]);
    }
  }

  lemma MarkersAre(c: char)
    ensures Droppable(c) <==> IsWhitespace(c) || c in "#-*+>|`~=_"
  {
  }

  lemma InertIs(l: string)
    ensures InertLine(l) == Neutralized(l)
  {
  }

  lemma {:induction false} LeadsOf(ls: seq<string>) returns (leads: seq<string>, kept: seq<string>)
    ensures |leads| == |kept| == |ls| && forall i :: 0 <= i < |ls| ==> Leads(ls[i], leads[i], kept[i])
    ensures Paragraphs(ls) == Shown(kept)
  {
    leads, kept := [], [];
    if ls != [] {
      var more, rest := LeadsOf(ls[1..]);
      var lead := LeadOf(ls[0]);
      InertIs(DropLead(ls[0]));
      hide Leads, DropLead;
      leads, kept := [lead] + more, [DropLead(ls[0])] + rest;
      assert kept[1..] == rest;
      assert InertLine(kept[0]) == "" <==> kept[0] == "";
    }
  }

  lemma {:induction false} ParagraphsJoin(ps: seq<string>)
    ensures JoinParagraphs(ps) == JoinedBy(ps, "\n\n")
  {
    if |ps| > 1 {
      ParagraphsJoin(ps[1..]);
      assert ps[0] + "\n\n" + JoinParagraphs(ps[1..]) == ps[0] + ("\n\n" + JoinParagraphs(ps[1..]));
    }
  }

  /** Flattening takes the lead off every line, makes its openers inert, and joins what
      is not empty by blank lines: nothing else is lost, added or moved. */
  lemma FlattenedIs(s: string) returns (ls: seq<string>, leads: seq<string>, kept: seq<string>)
    ensures FlatOf(s, Flattened(s), ls, leads, kept)
  {
    ls := Lines(s);
    LinesJoin(s);
    LinesAreLines(s);
    leads, kept := LeadsOf(ls);
    ParagraphsJoin(Paragraphs(ls));
    hide Lines, Leads, Paragraphs, JoinedBy, OneLine, Shown, JoinParagraphs;
  }
}
