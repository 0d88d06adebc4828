/** Checking a model's narrative, filling its placeholders and flattening the
    result to plain paragraphs. */
module Narrative {
  import opened Prelude
  import opened Cron
  import opened Text
  import opened Facts

  datatype NarrativeError =
    | ForbiddenControl(c: char)
    | LiteralDigit(c: char)
    | CjkNumeralWithMeasure(text: string)
    | MeasureAfterUnit(text: string)
    | ReservedBracket(c: char)
    | UnknownPlaceholder(key: string)
    | MentionsFactsHeading
    | Unterminated
    | TooLong
    | Empty

  const MAX_NARRATIVE_CHARS: nat := 2000
  const FACTS_HEADING_WORD: string := "本周数字"
  const MEASURE: seq<string> := ["小时", "分钟", "个", "件", "次", "项", "天", "周", "%", "％", "倍", "成"]
  const RESERVED: string := [OPEN_UNIT, CLOSE_UNIT, OPEN_TITLE, CLOSE_TITLE]

  predicate IsCjkNumeral(c: char) {
    || c == '〇' || c == '零' || c == '一' || c == '二' || c == '两' || c == '三' || c == '四' || c == '五'
    || c == '六' || c == '七' || c == '八' || c == '九' || c == '十' || c == '百' || c == '千' || c == '万'
    || c == '亿' || c == '壹' || c == '贰' || c == '叁' || c == '肆' || c == '伍' || c == '陆' || c == '柒'
    || c == '捌' || c == '玖' || c == '拾' || c == '佰' || c == '仟' || c == '萬' || c == '兩' || c == '貳'
    || c == '參' || c == '陸' || c == '億' || c == '廿' || c == '卅' || c == '卌'
  }

  /** `char::is_numeric`, with the few facts about it the proofs use. */
  ghost predicate NumericClass(numeric: char -> bool) {
    !numeric('\n') && !numeric('\U{FF1C}') && !numeric('\U{FF06}')
  }

  // --------------------------------------------------------- literal checks

  function FirstMeasure(r: string, k: nat): Option<string>
    requires k <= |MEASURE|
    decreases |MEASURE| - k
  {
    if k == |MEASURE| then None else if MEASURE[k] <= r then Some(MEASURE[k]) else FirstMeasure(r, k + 1)
  }

  /** The measure word at the front of `rest`, at most one space in. */
  function MeasureAt(rest: string): Option<string> {
    FirstMeasure(if rest != "" && rest[0] == ' ' then rest[1..] else rest, 0)
  }

  function RunEnd(s: string, i: nat): (j: nat)
    requires i <= |s|
    ensures i <= j <= |s|
    ensures forall k :: i <= k < j ==> IsCjkNumeral(s[k])
    ensures j < |s| ==> !IsCjkNumeral(s[j])
    decreases |s| - i
  {
    if i < |s| && IsCjkNumeral(s[i]) then RunEnd(s, i + 1) else i
  }

  /** The three characters a run is checked against. */
  function Ahead(s: string, j: nat): string
    requires j <= |s|
  {
    s[j..(if j + 3 <= |s| then j + 3 else |s|)]
  }

  function RunsFrom(s: string, i: nat): Result<(), NarrativeError>
    requires i <= |s|
    decreases |s| - i
  {
    if i == |s| then Ok(())
    else if !IsCjkNumeral(s[i]) then RunsFrom(s, i + 1)
    else
      var j := RunEnd(s, i + 1);
      match MeasureAt(Ahead(s, j))
      case Some(m) => Err(CjkNumeralWithMeasure(s[i..j] + m))
      case None => RunsFrom(s, j)
  }

  function FirstNumeric(s: string, numeric: char -> bool): (r: Option<char>)
    ensures r.None? ==> forall i :: 0 <= i < |s| ==> !numeric(s[i])
  {
    if s == "" then None else if numeric(s[0]) then Some(s[0]) else FirstNumeric(s[1..], numeric)
  }

  function FirstReserved(s: string): (r: Option<char>)
    ensures r.None? ==> forall i :: 0 <= i < |s| ==> s[i] !in RESERVED
  {
    if s == "" then None else if s[0] in RESERVED then Some(s[0]) else FirstReserved(s[1..])
  }

  function CheckedLiteral(s: string, numeric: char -> bool): Result<(), NarrativeError> {
    var digit, bracket := FirstNumeric(s, numeric), FirstReserved(s);
    if digit.Some? then Err(LiteralDigit(digit.value))
    else if bracket.Some? then Err(ReservedBracket(bracket.value))
    else RunsFrom(s, 0)
  }

  /** A literal segment may hold no digit, no bracket of the program's, and no
      counted measure in Chinese numerals. */
  method CheckLiteral(s: string, numeric: char -> bool) returns (r: Result<(), NarrativeError>)
    ensures r == CheckedLiteral(s, numeric)
  {
    var digit, bracket := FirstNumeric(s, numeric), FirstReserved(s);
    if digit.Some? {
      return Err(LiteralDigit(digit.value));
    } else if bracket.Some? {
      return Err(ReservedBracket(bracket.value));
    }
    var i := 0;
    while i < |s|
      invariant 0 <= i <= |s|
      invariant RunsFrom(s, i) == RunsFrom(s, 0)
    {
      if IsCjkNumeral(s[i]) {
        var start := i;
        i := i + 1;
        while i < |s| && IsCjkNumeral(s[i])
          invariant start < i <= |s|
          invariant RunEnd(s, i) == RunEnd(s, start + 1)
        {
          i := i + 1;
        }
        var m := MeasureAt(Ahead(s, i));
        if m.Some? {
          return Err(CjkNumeralWithMeasure(s[start..i] + m.value));
        }
      } else {
        i := i + 1;
      }
    }
    return Ok(());
  }

  // ------------------------------------------------------------- flattening

  predicate IsMarker(c: char) {
    c in ['#', '-', '*', '+', '>', '|', '`', '~', '=', '_']
  }

  predicate Droppable(c: char) {
    IsWhitespace(c) || IsMarker(c)
  }

  function DropMarkers(s: string): string {
    if s != "" && IsMarker(s[0]) then DropMarkers(s[1..]) else s
  }

  function DropLead(s: string): string {
    if s != "" && Droppable(s[0]) then DropLead(s[1..]) else s
  }

  function Neutral(c: char): char {
    if c == '<' then '\U{FF1C}' else if c == '&' then '\U{FF06}' else c
  }

  function Neutralized(s: string): string {
    seq(|s|, i requires 0 <= i < |s| => Neutral(s[i]))
  }

  function PlainLined(l: string): string {
    Neutralized(DropLead(l))
  }

  lemma {:induction false} DropLeadSplits(s: string)
    ensures DropLead(TrimStart(s)) == DropLead(s)
    ensures DropLead(DropMarkers(s)) == DropLead(s)
    ensures TrimStart(s) == s && DropMarkers(s) == s ==> DropLead(s) == s
    ensures |TrimStart(s)| <= |s| && |DropMarkers(s)| <= |s|
    ensures |TrimStart(s)| == |s| ==> TrimStart(s) == s
    ensures |DropMarkers(s)| == |s| ==> DropMarkers(s) == s
    ensures TrimStart(TrimStart(s)) == TrimStart(s)
  {
    if s != "" {
      DropLeadSplits(s[1..]);
    }
  }

  /** Trims spaces and block markers in turn until neither is left in front. */
  method PlainLine(l: string) returns (line: string)
    ensures line == PlainLined(l)
  {
    DropLeadSplits(l);
    var t := TrimStart(l);
    while true
      invariant DropLead(t) == DropLead(l) && TrimStart(t) == t
      decreases |t|
    {
      var before := t;
      DropLeadSplits(t);
      t := DropMarkers(t);
      DropLeadSplits(t);
      t := TrimStart(t);
      DropLeadSplits(t);
      if |t| == |before| {
        break;
      }
    }
    return Neutralized(t);
  }

  /** `split('\n')`: one line more than there are line ends. */
  function Lines(s: string): (ls: seq<string>)
    ensures ls != []
  {
    if s == "" then [""]
    else
      var rest := Lines(s[1..]);
      if s[0] == '\n' then [""] + rest else [[s[0]] + rest[0]] + rest[1..]
  }

  function Paragraphs(ls: seq<string>): seq<string> {
    if ls == [] then []
    else
      var line := PlainLined(ls[0]);
      (if line == "" then [] else [line]) + Paragraphs(ls[1..])
  }

  function JoinParagraphs(ps: seq<string>): string {
    if ps == [] then "" else if |ps| == 1 then ps[0] else ps[0] + "\n\n" + JoinParagraphs(ps[1..])
  }

  function Flattened(s: string): string {
    JoinParagraphs(Paragraphs(Lines(s)))
  }

  method Flatten(s: string) returns (body: string)
    ensures body == Flattened(s)
  {
    hide PlainLined, Lines, JoinParagraphs;
    var ls := Lines(s);
    var paras: seq<string> := [];
    for i := 0 to |ls|
      invariant paras + Paragraphs(ls[i..]) == Paragraphs(ls)
    {
      assert ls[i..][1..] == ls[i + 1..];
      var line := PlainLine(ls[i]);
      if line != "" {
        paras := paras + [line];
      }
    }
    assert paras + [] == paras;
    return JoinParagraphs(paras);
  }

  // ----------------------------------------------------------- placeholders

  /** First place where `c` stands twice in a row. */
  function FindPair(s: string, c: char): (r: Option<nat>)
    ensures r.Some? ==> r.value + 2 <= |s| && s[r.value] == c && s[r.value + 1] == c
    ensures r.Some? ==> forall i :: 0 <= i < r.value ==> !(s[i] == c && s[i + 1] == c)
    ensures r.None? ==> forall i :: 0 <= i < |s| - 1 ==> !(s[i] == c && s[i + 1] == c)
  {
    if |s| < 2 then None
    else if s[0] == c && s[1] == c then Some(0)
    else
      match FindPair(s[1..], c)
      case None => None
      case Some(i) => Some(i + 1)
  }

  /** A rendered narrative as atoms: literal characters, and whole spans that
      only the program can have written. */
  datatype Tok = Ch(c: char) | Unit(fact: Fact) | Title(title: string)

  function TokText(t: Tok): string {
    match t
    case Ch(c) => [c]
    case Unit(f) => RenderUnit(f)
    case Title(t) => RenderTitle(t)
  }

  function TextOf(ts: seq<Tok>): string {
    if ts == [] then "" else TokText(ts[0]) + TextOf(ts[1..])
  }

  function Chars(s: string): seq<Tok> {
    seq(|s|, i requires 0 <= i < |s| => Ch(s[i]))
  }

  /** What a placeholder key stands for. */
  function Resolve(key: string, fs: seq<Fact>, titles: seq<string>): (r: Option<Tok>)
    ensures r.Some? ==> !r.value.Ch? && (r.value.Unit? ==> r.value.fact in fs)
  {
    match ParseKey(key)
    case None => None
    case Some((FactKey, _)) =>
      (match FindFact(fs, key)
       case Some(f) => Some(Unit(f))
       case None => None)
    case Some((TitleKey, n)) => if 1 <= n <= |titles| then Some(Title(titles[n - 1])) else None
  }

  /** The narrative up to and including its next placeholder, or its end. */
  datatype Piece = Tail | Hole(lit: string, tok: Tok, next: string)

  function NextPiece(rest: string, fs: seq<Fact>, titles: seq<string>, numeric: char -> bool): (r: Result<Piece, NarrativeError>)
    ensures r.Ok? && r.value.Hole? ==>
              var Hole(lit, tok, next) := r.value;
              && |lit| + |next| < |rest| && lit == rest[..|lit|] && rest[|lit|] == '{'
              && CheckedLiteral(lit, numeric).Ok?
              && !tok.Ch? && (tok.Unit? ==> tok.fact in fs && MeasureAt(next).None?)
  {
    var open := FindPair(rest, '{');
    if open.None? then Ok(Tail)
    else
      var lit, after := rest[..open.value], rest[open.value + 2..];
      var checked, close := CheckedLiteral(lit, numeric), FindPair(after, '}');
      if checked.Err? then Err(checked.error)
      else if close.None? then Err(Unterminated)
      else
        var key, next := after[..close.value], after[close.value + 2..];
        var tok := Resolve(key, fs, titles);
        if tok.None? then Err(UnknownPlaceholder(key))
        else if tok.value.Unit? && MeasureAt(next).Some? then
          Err(MeasureAfterUnit("{{" + key + "}}" + MeasureAt(next).value))
        else Ok(Hole(lit, tok.value, next))
  }

  /** The whole checked rendering of a normalized narrative. */
  function Rendered(rest: string, fs: seq<Fact>, titles: seq<string>, numeric: char -> bool): Result<seq<Tok>, NarrativeError>
    decreases |rest|
  {
    match NextPiece(rest, fs, titles, numeric)
    case Err(e) => Err(e)
    case Ok(Tail) =>
      (match CheckedLiteral(rest, numeric)
       case Err(e) => Err(e)
       case Ok(_) => Ok(Chars(rest)))
    case Ok(Hole(lit, tok, next)) => After(Chars(lit) + [tok], Rendered(next, fs, titles, numeric))
  }

  /** Prepends what has been rendered so far to what the rest renders to. */
  function After(done: seq<Tok>, rest: Result<seq<Tok>, NarrativeError>): Result<seq<Tok>, NarrativeError> {
    match rest
    case Err(e) => Err(e)
    case Ok(ts) => Ok(done + ts)
  }

  function FirstForbidden(s: string): Option<char> {
    if s == "" then None else if IsForbiddenControl(s[0]) then Some(s[0]) else FirstForbidden(s[1..])
  }

  function Squashed(s: string): string {
    if s == "" then "" else (if IsWhitespace(s[0]) then "" else [s[0]]) + Squashed(s[1..])
  }

  predicate Contains(s: string, word: string) {
    word <= s || (s != "" && Contains(s[1..], word))
  }

  predicate Blank(s: string) {
    forall i :: 0 <= i < |s| ==> IsWhitespace(s[i])
  }

  /** The checks made on the narrative as a whole, in order. */
  function Precheck(raw: string): Result<string, NarrativeError> {
    var c := FirstForbidden(raw);
    if c.Some? then Err(ForbiddenControl(c.value))
    else
      var narr := Normalized(raw);
      if Blank(narr) then Err(Empty)
      else if |narr| > MAX_NARRATIVE_CHARS then Err(TooLong)
      else if Contains(Squashed(narr), FACTS_HEADING_WORD) then Err(MentionsFactsHeading)
      else Ok(narr)
  }

  function Filled(raw: string, fs: seq<Fact>, titles: seq<string>, numeric: char -> bool): Result<string, NarrativeError> {
    match Precheck(raw)
    case Err(e) => Err(e)
    case Ok(narr) =>
      match Rendered(narr, fs, titles, numeric)
      case Err(e) => Err(e)
      case Ok(ts) => Ok(Flattened(TextOf(ts)))
  }

  lemma {:induction false} TextOfConcat(a: seq<Tok>, b: seq<Tok>)
    ensures TextOf(a + b) == TextOf(a) + TextOf(b)
  {
    if a == [] {
      assert a + b == b;
    } else {
      assert (a + b)[1..] == a[1..] + b;
      TextOfConcat(a[1..], b);
    }
  }

  lemma {:induction false} TextOfChars(s: string)
    ensures TextOf(Chars(s)) == s
  {
    if s != "" {
      assert Chars(s)[1..] == Chars(s[1..]);
      TextOfChars(s[1..]);
    }
  }

  method TakePiece(rest: string, fs: seq<Fact>, titles: seq<string>, numeric: char -> bool)
    returns (r: Result<Piece, NarrativeError>)
    ensures r == NextPiece(rest, fs, titles, numeric)
  {
    var open := FindPair(rest, '{');
    if open.None? {
      return Ok(Tail);
    }
    var lit, after := rest[..open.value], rest[open.value + 2..];
    var checked := CheckLiteral(lit, numeric);
    if checked.Err? {
      return Err(checked.error);
    }
    var close := FindPair(after, '}');
    if close.None? {
      return Err(Unterminated);
    }
    var key, next := after[..close.value], after[close.value + 2..];
    var tok := Resolve(key, fs, titles);
    if tok.None? {
      return Err(UnknownPlaceholder(key));
    }
    if tok.value.Unit? {
      var m := MeasureAt(next);
      if m.Some? {
        return Err(MeasureAfterUnit("{{" + key + "}}" + m.value));
      }
    }
    return Ok(Hole(lit, tok.value, next));
  }

  /** Validate and render: the loop over placeholders, writing to one buffer. */
  method FillNarrative(raw: string, fs: seq<Fact>, titles: seq<string>, numeric: char -> bool)
    returns (r: Result<string, NarrativeError>)
    ensures r == Filled(raw, fs, titles, numeric)
  {
    var pre := Precheck(raw);
    if pre.Err? {
      return Err(pre.error);
    }
    var rest, out := pre.value, "";
    ghost var done: seq<Tok> := [];
    AfterNothing(Rendered(rest, fs, titles, numeric));
    while true
      invariant out == TextOf(done)
      invariant After(done, Rendered(rest, fs, titles, numeric)) == Rendered(pre.value, fs, titles, numeric)
      decreases |rest|
    {
      var piece := TakePiece(rest, fs, titles, numeric);
      if piece.Err? {
        return Err(piece.error);
      }
      if piece.value.Tail? {
        break;
      }
      var Hole(lit, tok, next) := piece.value;
      out := out + lit + TokText(tok);
      rest := next;
      RenderStep(done, lit, tok);
      AfterTwice(done, Chars(lit) + [tok], Rendered(rest, fs, titles, numeric));
      done := done + (Chars(lit) + [tok]);
    }
    var checked := CheckLiteral(rest, numeric);
    if checked.Err? {
      return Err(checked.error);
    }
    TextOfConcat(done, Chars(rest));
    TextOfChars(rest);
    var body := Flatten(out + rest);
    return Ok(body);
  }

  lemma RenderStep(done: seq<Tok>, lit: string, tok: Tok)
    ensures TextOf(done + (Chars(lit) + [tok])) == TextOf(done) + lit + TokText(tok)
  {
    TextOfConcat(done, Chars(lit) + [tok]);
    TextOfConcat(Chars(lit), [tok]);
    TextOfChars(lit);
    assert [tok][1..] == [] && TextOf([]) == "";
    assert TextOf([tok]) == TokText(tok) + "";
  }

  lemma AfterNothing(rest: Result<seq<Tok>, NarrativeError>)
    ensures After([], rest) == rest
  {
    if rest.Ok? {
      assert [] + rest.value == rest.value;
    }
  }

  lemma AfterTwice(a: seq<Tok>, b: seq<Tok>, rest: Result<seq<Tok>, NarrativeError>)
    ensures After(a + b, rest) == After(a, After(b, rest))
  {
    if rest.Ok? {
      assert a + b + rest.value == a + (b + rest.value);
    }
  }
}
