/** What cleaning keeps: no character a reader sees is lost or moved, and the
    escapes read back. */
module TextLaws {
  import opened Cron
  import opened Text

  // --------------------------------------------------------------- trimming

  predicate AllBlank(s: string) {
    forall i :: 0 <= i < |s| ==> IsWhitespace(s[i])
  }

  /** Trimming takes whitespace off both ends, all of it and nothing else. */
  lemma TrimTakes(s: string) returns (before: string, after: string)
    ensures s == before + Trim(s) + after && AllBlank(before) && AllBlank(after)
    ensures Trim(s) != "" ==> !IsWhitespace(Trim(s)[0]) && !IsWhitespace(Trim(s)[|Trim(s)| - 1])
  {
    before := TrimStartTakes(s);
    after := TrimEndTakes(TrimStart(s));
    assert s == before + (Trim(s) + after);
    if Trim(s) != "" {
      assert Trim(s)[0] == TrimStart(s)[0];
    }
  }

  lemma {:induction false} TrimStartTakes(s: string) returns (before: string)
    ensures s == before + TrimStart(s) && AllBlank(before)
    ensures TrimStart(s) != "" ==> !IsWhitespace(TrimStart(s)[0])
  {
    before := "";
    if s != "" && IsWhitespace(s[0]) {
      var rest := TrimStartTakes(s[1..]);
      before := [s[0]] + rest;
      assert s == [s[0]] + s[1..];
    }
  }

  lemma {:induction false} TrimEndTakes(s: string) returns (after: string)
    ensures s == TrimEnd(s) + after && AllBlank(after)
    ensures TrimEnd(s) != "" ==> !IsWhitespace(TrimEnd(s)[|TrimEnd(s)| - 1])
    decreases |s|
  {
    after := "";
    if s != "" && IsWhitespace(s[|s| - 1]) {
      var init := s[..|s| - 1];
      var rest := TrimEndTakes(init);
      after := rest + [s[|s| - 1]];
      assert s == init + [s[|s| - 1]];
    }
  }

  // ------------------------------------------------------------------- ink

  /** A character that shows: not whitespace, not a format character, not a control. */
  predicate Shows(c: char) {
    !IsWhitespace(c) && !IsFormat(c) && !IsForbiddenControl(c)
  }

  function InkOf(c: char): string {
    if Shows(c) then [c] else ""
  }

  function Ink(s: string): string {
    if s == "" then "" else InkOf(s[0]) + Ink(s[1..])
  }

  lemma InkHead(s: string)
    ensures Ink("") == ""
    ensures s != "" ==> Ink(s) == InkOf(s[0]) + Ink(s[1..])
  {
    hide InkOf;
  }

  lemma Regroup(a: string, b: string, c: string)
    ensures a + (b + c) == (a + b) + c
  {
  }

  lemma FrontOf(a: string, b: string)
    ensures a == "" ==> a + b == b
    ensures a != "" ==> a + b != "" && (a + b)[0] == a[0] && (a + b)[1..] == a[1..] + b
  {
  }

  lemma {:induction false} InkConcat(a: string, b: string)
    ensures Ink(a + b) == Ink(a) + Ink(b)
  {
    hide *;
    InkHead(a);
    InkHead(a + b);
    FrontOf(a, b);
    if a == "" {
      FrontOf(Ink(a), Ink(b));
    } else {
      InkConcat(a[1..], b);
      Regroup(InkOf(a[0]), Ink(a[1..]), Ink(b));
    }
  }

  lemma {:induction false} InkOfBlank(s: string)
    requires AllBlank(s)
    ensures Ink(s) == ""
  {
    if s != "" {
      InkOfBlank(s[1..]);
    }
  }

  lemma InkOfOne(c: char)
    ensures Ink([c]) == if Shows(c) then [c] else ""
  {
    hide Shows;
    assert [c][1..] == "" && Ink("") == "";
  }

  lemma InkCons(c: char, rest: string)
    ensures Ink([c] + rest) == Ink([c]) + Ink(rest)
  {
    InkConcat([c], rest);
  }

  lemma PieceInk(c: char, inWs: bool)
    ensures Ink(Piece(c, inWs)) == Ink([c])
  {
    InkOfOne(c);
    InkOfOne(' ');
    assert Ink("") == "";
  }

  lemma {:induction false} NormalizeKeepsInk(s: string, inWs: bool)
    ensures Ink(NormalizeFrom(s, inWs)) == Ink(s)
  {
    if s != "" {
      NormalizeKeepsInk(s[1..], NextWs(s[0], inWs));
      PieceInk(s[0], inWs);
      hide Piece, NextWs, Shows;
      InkConcat(Piece(s[0], inWs), NormalizeFrom(s[1..], NextWs(s[0], inWs)));
      InkCons(s[0], s[1..]);
      assert [s[0]] + s[1..] == s;
    }
  }

  lemma {:induction false} DropKeepsInk(s: string)
    ensures Ink(DropControls(s)) == Ink(s)
  {
    if s != "" {
      var c, rest := s[0], DropControls(s[1..]);
      DropKeepsInk(s[1..]);
      InkOfOne(c);
      InkOfOne(' ');
      InkCons(c, s[1..]);
      InkCons(c, rest);
      InkCons(' ', rest);
      assert [c] + s[1..] == s;
      assert c == '\r' || IsForbiddenControl(c) ==> !Shows(c);
      hide Ink, Shows, IsForbiddenControl;
    }
  }

  lemma {:induction false} UnlineKeepsInk(s: string)
    ensures Ink(Unlined(s)) == Ink(s)
  {
    if s != "" {
      UnlineKeepsInk(s[1..]);
      var c := if s[0] == '\n' then ' ' else s[0];
      assert Unlined(s) == [c] + Unlined(s[1..]) && s == [s[0]] + s[1..];
      InkOfOne(c);
      InkOfOne(s[0]);
      InkCons(c, Unlined(s[1..]));
      InkCons(s[0], s[1..]);
    }
  }

  lemma TrimKeepsInk(s: string)
    ensures Ink(Trim(s)) == Ink(s)
  {
    var before, after := TrimTakes(s);
    hide *;
    InkConcat(before + Trim(s), after);
    InkConcat(before, Trim(s));
    InkOfBlank(before);
    InkOfBlank(after);
    assert "" + Ink(Trim(s)) + "" == Ink(Trim(s));
  }

  /** Normalizing keeps every character that shows, in order. */
  lemma NormalizedKeeps(s: string)
    ensures Ink(Normalized(s)) == Ink(s)
  {
    NormalizeKeepsInk(s, false);
  }

  // ------------------------------------------------------------------ words

  /** What may not stay in a text: format characters, and the controls and separators
      but for the line end and the carriage return. */
  predicate Illegible(c: char) {
    IsFormat(c) || (c != '\n' && c != '\r' && (c <= '\U{1F}' || '\U{7F}' <= c <= '\U{9F}' || c in "\U{2028}\U{2029}"))
  }

  function Legible(s: string): string {
    if s == "" then "" else (if Illegible(s[0]) then "" else [s[0]]) + Legible(s[1..])
  }

  function Unformatted(s: string): string {
    if s == "" then "" else (if IsFormat(s[0]) then "" else [s[0]]) + Unformatted(s[1..])
  }

  lemma NormalChar(c: char, inWs: bool)
    ensures IsFormat(c) ==> Piece(c, inWs) == "" && NextWs(c, inWs) == inWs
    ensures !IsFormat(c) && IsWhitespace(c) ==>
              (Piece(c, inWs) == "" && inWs && NextWs(c, inWs)) || (|Piece(c, inWs)| == 1 && IsWhitespace(Piece(c, inWs)[0]))
    ensures !IsFormat(c) && !IsWhitespace(c) ==> Piece(c, inWs) == [c] && !NextWs(c, inWs)
  {
  }

  lemma NormalizeIs(s: string, inWs: bool)
    ensures s == "" ==> NormalizeFrom(s, inWs) == ""
    ensures s != "" ==> NormalizeFrom(s, inWs) == Piece(s[0], inWs) + NormalizeFrom(s[1..], NextWs(s[0], inWs))
  {
    hide Piece, NextWs;
  }

  lemma UnformattedIs(s: string)
    ensures s == "" ==> Unformatted(s) == ""
    ensures s != "" ==> Unformatted(s) == (if IsFormat(s[0]) then "" else [s[0]]) + Unformatted(s[1..])
  {
    hide IsFormat;
  }

  lemma NoWords()
    ensures NoWhitespace("") && WordsFrom("", "") == []
  {
  }

  /** Normalizing keeps the words of a text, whatever spaces it drops. */
  lemma {:induction false} NormalWords(cur: string, s: string, inWs: bool)
    requires NoWhitespace(cur) && (inWs ==> cur == "")
    ensures WordsFrom(cur, NormalizeFrom(s, inWs)) == WordsFrom(cur, Unformatted(s))
    decreases |s|
  {
    hide *;
    NormalizeIs(s, inWs);
    UnformattedIs(s);
    if s != "" {
      var c, rest := s[0], s[1..];
      var next := NextWs(c, inWs);
      NormalChar(c, inWs);
      NoWords();
      WordsStep(cur, Piece(c, inWs), NormalizeFrom(rest, next));
      WordsStep(cur, if IsFormat(c) then "" else [c], Unformatted(rest));
      if IsFormat(c) {
        NormalWords(cur, rest, next);
      } else if IsWhitespace(c) {
        NormalWords("", rest, next);
      } else {
        NormalWords(cur + [c], rest, next);
      }
    }
  }

  /** What becomes of one character of a title, before and after. */
  function KeptOf(c: char): string {
    if c == '\r' then " " else if IsForbiddenControl(c) then "" else [c]
  }

  function Readable(c: char): string {
    if Illegible(c) then "" else [c]
  }

  lemma DropIs(s: string)
    ensures s == "" ==> Unformatted(DropControls(s)) == "" && Legible(s) == ""
    ensures s != "" ==>
              && Unformatted(DropControls(s)) == Unformatted(KeptOf(s[0])) + Unformatted(DropControls(s[1..]))
              && Legible(s) == Readable(s[0]) + Legible(s[1..])
  {
    if s != "" {
      var k, rest := KeptOf(s[0]), DropControls(s[1..]);
      assert DropControls(s) == k + rest;
      hide Illegible, IsFormat, IsForbiddenControl, DropControls;
      UnformattedIs(k + rest);
      UnformattedIs(k);
      if k == "" {
        assert k + rest == rest;
      } else {
        assert (k + rest)[0] == k[0] && (k + rest)[1..] == rest && k[1..] == "";
        UnformattedIs("");
      }
    }
  }

  lemma DropChar(c: char)
    ensures Illegible(c) ==> Unformatted(KeptOf(c)) == ""
    ensures !Illegible(c) && IsWhitespace(c) ==> |Unformatted(KeptOf(c))| == 1 && IsWhitespace(Unformatted(KeptOf(c))[0])
    ensures !Illegible(c) && !IsWhitespace(c) ==> Unformatted(KeptOf(c)) == [c]
  {
    UnformattedIs(KeptOf(c));
    UnformattedIs("");
    assert [c][1..] == "" && " "[1..] == "";
    hide Unformatted;
  }

  lemma {:induction false} DropWords(cur: string, s: string)
    requires NoWhitespace(cur)
    ensures WordsFrom(cur, Unformatted(DropControls(s))) == WordsFrom(cur, Legible(s))
    decreases |s|
  {
    hide WordsFrom, Unformatted, DropControls, Legible, KeptOf, Illegible, IsWhitespace, NoWhitespace;
    DropIs(s);
    if s != "" {
      var c, rest := s[0], s[1..];
      DropChar(c);
      NoWords();
      WordsStep(cur, Unformatted(KeptOf(c)), Unformatted(DropControls(rest)));
      WordsStep(cur, Readable(c), Legible(rest));
      if Illegible(c) {
        DropWords(cur, rest);
      } else if IsWhitespace(c) {
        DropWords("", rest);
      } else {
        DropWords(cur + [c], rest);
      }
    }
  }

  lemma UnlinedIs(s: string)
    ensures s == "" ==> Unlined(s) == ""
    ensures s != "" ==> Unlined(s) == [if s[0] == '\n' then ' ' else s[0]] + Unlined(s[1..]) && s == [s[0]] + s[1..]
  {
  }

  lemma LineEndIsSpace()
    ensures IsWhitespace('\n') && IsWhitespace(' ')
  {
  }

  lemma {:induction false} UnlineWords(cur: string, s: string)
    requires NoWhitespace(cur)
    ensures WordsFrom(cur, Unlined(s)) == WordsFrom(cur, s)
    decreases |s|
  {
    hide *;
    UnlinedIs(s);
    if s != "" {
      var c := if s[0] == '\n' then ' ' else s[0];
      LineEndIsSpace();
      NoWords();
      WordsStep(cur, [c], Unlined(s[1..]));
      WordsStep(cur, [s[0]], s[1..]);
      if IsWhitespace(c) {
        UnlineWords("", s[1..]);
      } else {
        UnlineWords(cur + [c], s[1..]);
      }
    }
  }

  lemma BlankIs(b: string)
    ensures AllBlank(b) && b != "" ==> IsWhitespace(b[0]) && AllBlank(b[1..]) && b == [b[0]] + b[1..]
  {
    hide IsWhitespace;
  }

  lemma {:induction false} BlankFront(b: string, s: string)
    requires AllBlank(b)
    ensures Words(b + s) == Words(s)
  {
    hide WordsFrom, AllBlank, IsWhitespace;
    BlankIs(b);
    FrontOf(b, s);
    if b != "" {
      NoWords();
      WordsStep("", [b[0]], b[1..] + s);
      Regroup([b[0]], b[1..], s);
      BlankFront(b[1..], s);
    }
  }

  lemma WordsEnd(cur: string)
    requires NoWhitespace(cur)
    ensures WordsFrom(cur, "") == if cur == "" then [] else [cur]
  {
  }

  lemma WordsEmpty(s: string)
    ensures Words(s) == WordsFrom("", s)
  {
  }

  lemma {:induction false} BlankBack(cur: string, s: string, b: string)
    requires NoWhitespace(cur) && AllBlank(b)
    ensures WordsFrom(cur, s + b) == WordsFrom(cur, s)
    decreases |s| + |b|
  {
    hide *;
    NoWords();
    if s != "" {
      FrontOf(s, b);
      HeadOf(s);
      HeadOf(s + b);
      WordsStep(cur, [s[0]], s[1..] + b);
      WordsStep(cur, [s[0]], s[1..]);
      if IsWhitespace(s[0]) {
        BlankBack("", s[1..], b);
      } else {
        BlankBack(cur + [s[0]], s[1..], b);
      }
    } else {
      FrontOf(s, b);
      BlankIs(b);
      WordsEnd(cur);
      if b != "" {
        WordsStep(cur, [b[0]], b[1..]);
        FrontOf("", b[1..]);
        BlankBack("", "", b[1..]);
        WordsEnd("");
      }
    }
  }

  lemma HeadOf(s: string)
    ensures s != "" ==> s == [s[0]] + s[1..]
  {
  }

  lemma TrimWords(s: string)
    ensures Words(Trim(s)) == Words(s)
  {
    var before, after := TrimTakes(s);
    hide *;
    NoWords();
    WordsEmpty(before + Trim(s) + after);
    WordsEmpty(before + Trim(s));
    BlankBack("", before + Trim(s), after);
    BlankFront(before, Trim(s));
  }

  /** A title keeps its words: those of what is legible in it, a carriage return
      counting as a space and any other control as nothing. */
  lemma TitleKeepsWords(s: string)
    ensures Words(Flat(s)) == Words(Legible(s))
  {
    var kept := DropControls(s);
    NoWords();
    TrimWords(Unlined(Normalized(kept)));
    UnlineWords("", Normalized(kept));
    NormalWords("", kept, false);
    DropWords("", s);
  }

  /** The White_Space characters, one by one. */
  lemma WhitespaceIs(c: char)
    ensures IsWhitespace(c) <==>
              c in "\U{9}\U{A}\U{B}\U{C}\U{D} \U{85}\U{A0}\U{1680}\U{2000}\U{2001}\U{2002}\U{2003}\U{2004}\U{2005}"
              || c in "\U{2006}\U{2007}\U{2008}\U{2009}\U{200A}\U{2028}\U{2029}\U{202F}\U{205F}\U{3000}"
  {
  }

  // ----------------------------------------------------------------- escapes

  /** What stands in a body for a character of a title. */
  function StandIn(c: char): char {
    match c
    case '<' => '＜'
    case '>' => '＞'
    case '&' => '＆'
    case '〔' => '［'
    case '〕' => '］'
    case '「' => '『'
    case '」' => '』'
    case _ => c
  }

  function StoodIn(s: string): string {
    seq(|s|, i requires 0 <= i < |s| => StandIn(s[i]))
  }

  /** Reads Markdown's escapes back: a backslash gives the character after it. */
  function Unescaped(s: string): string {
    if s == "" then ""
    else if s[0] == '\\' && |s| > 1 then [s[1]] + Unescaped(s[2..])
    else [s[0]] + Unescaped(s[1..])
  }

  /** The characters Markdown would give a meaning to, each escaped. */
  lemma EscapedAre(c: char)
    ensures c in "\\`*_[]()#|~!" ==> Escape(c) == ['\\', c] && StandIn(c) == c
    ensures c !in "\\`*_[]()#|~!" ==> Escape(c) == [StandIn(c)] && StandIn(c) != '\\'
  {
    assert IsMarkdown(c) <==> c in "\\`*_[]()#|~!";
  }

  lemma {:induction false} EscapesReadBack(s: string)
    ensures Unescaped(EscapeAll(s)) == StoodIn(s)
  {
    if s != "" {
      var c, rest := s[0], EscapeAll(s[1..]);
      EscapesReadBack(s[1..]);
      EscapedAre(c);
      hide Escape, StandIn;
      assert StoodIn(s) == [StandIn(c)] + StoodIn(s[1..]);
      var all := Escape(c) + rest;
      if |Escape(c)| == 2 {
        assert all[0] == '\\' && all[1] == c && all[2..] == rest;
      } else {
        assert all[0] == StandIn(c) && all[1..] == rest;
      }
    }
  }

  /** A title's inline form, its escapes read back, is the title without line ends,
      with its markup and brackets replaced; and of the title's own characters none
      that shows is lost, added or moved. */
  lemma SanitizedReads(s: string)
    ensures Unescaped(Sanitized(s)) == StoodIn(Flat(s)) && Ink(Flat(s)) == Ink(s)
  {
    EscapesReadBack(Flat(s));
    DropKeepsInk(s);
    NormalizedKeeps(DropControls(s));
    UnlineKeepsInk(Normalized(DropControls(s)));
    TrimKeepsInk(Unlined(Normalized(DropControls(s))));
  }
}
