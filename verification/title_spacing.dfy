/** When the inline form of a title has single spaces only. The promise is that all
    whitespace, line ends included, comes out as one space; a line end next to other
    whitespace breaks it, and nothing else does. */
module TitleSpacing {
  import opened Cron
  import opened Text

  /** No two spaces in a row. */
  predicate SingleSpaced(s: string) {
    forall i :: 0 <= i < |s| - 1 ==> !(s[i] == ' ' && s[i + 1] == ' ')
  }

  function DropFormat(s: string): string {
    if s == "" then "" else (if IsFormat(s[0]) then "" else [s[0]]) + DropFormat(s[1..])
  }

  /** The title as its reader sees it: without controls and format characters, a
      carriage return counting as a space, and nothing blank at either end. */
  function Visible(s: string): string {
    Trim(DropFormat(DropControls(s)))
  }

  predicate IsGap(x: char, y: char) {
    IsWhitespace(x) && IsWhitespace(y) && (x == '\n' || y == '\n')
  }

  /** Somewhere a line end has whitespace beside it. */
  predicate LineEndInGap(s: string) {
    exists i :: 0 <= i < |s| - 1 && IsGap(s[i], s[i + 1])
  }

  // --------------------------------------------- the same, one step at a time

  predicate DoubledAfter(prev: char, s: string)
    decreases |s|
  {
    s != "" && ((prev == ' ' && s[0] == ' ') || DoubledAfter(s[0], s[1..]))
  }

  predicate GapAfter(prev: char, s: string)
    decreases |s|
  {
    s != "" && (IsGap(prev, s[0]) || GapAfter(s[0], s[1..]))
  }

  lemma SingleSpacedCons(prev: char, s: string)
    ensures SingleSpaced([prev] + s) <==> SingleSpaced(s) && (s != "" ==> !(prev == ' ' && s[0] == ' '))
  {
    var all := [prev] + s;
    assert forall i :: 0 < i < |all| ==> all[i] == s[i - 1];
    if SingleSpaced(all) {
      forall i | 0 <= i < |s| - 1 ensures !(s[i] == ' ' && s[i + 1] == ' ') {
        assert s[i] == all[i + 1] && s[i + 1] == all[i + 1 + 1];
      }
      if s != "" {
        assert !(all[0] == ' ' && all[0 + 1] == ' ');
      }
    }
  }

  lemma GapCons(prev: char, s: string)
    ensures LineEndInGap([prev] + s) <==> LineEndInGap(s) || (s != "" && IsGap(prev, s[0]))
  {
    hide IsGap;
    var all := [prev] + s;
    assert forall i :: 0 < i < |all| ==> all[i] == s[i - 1];
    if i :| 0 <= i < |s| - 1 && IsGap(s[i], s[i + 1]) {
      assert IsGap(all[i + 1], all[i + 1 + 1]);
    }
    if i :| 0 <= i < |all| - 1 && IsGap(all[i], all[i + 1]) {
      if i > 0 {
        assert IsGap(s[i - 1], s[i - 1 + 1]);
      }
    }
    if s != "" && IsGap(prev, s[0]) {
      assert IsGap(all[0], all[0 + 1]);
    }
  }

  lemma {:induction false} DoubledIs(prev: char, s: string)
    ensures DoubledAfter(prev, s) <==> !SingleSpaced([prev] + s)
    decreases |s|
  {
    SingleSpacedCons(prev, s);
    if s != "" {
      DoubledIs(s[0], s[1..]);
      assert [s[0]] + s[1..] == s;
    }
  }

  lemma {:induction false} GapIs(prev: char, s: string)
    ensures GapAfter(prev, s) <==> LineEndInGap([prev] + s)
    decreases |s|
  {
    GapCons(prev, s);
    if s != "" {
      GapIs(s[0], s[1..]);
      assert [s[0]] + s[1..] == s;
    }
  }

  // ------------------------------------------------------------- the passes

  lemma EscapeEnds(c: char)
    ensures 1 <= |Escape(c)| <= 2
    ensures (Escape(c)[0] == ' ') == (c == ' ')
    ensures (Escape(c)[|Escape(c)| - 1] == ' ') == (c == ' ')
    ensures c == ' ' ==> |Escape(c)| == 1
  {
  }

  lemma DoubledOver(last: char, e: string, rest: string)
    requires 1 <= |e| <= 2 && (|e| == 2 ==> e[0] != ' ' && e[1] != ' ')
    ensures DoubledAfter(last, e + rest) <==> (last == ' ' && e[0] == ' ') || DoubledAfter(e[|e| - 1], rest)
  {
    assert (e + rest)[1..] == e[1..] + rest;
    if |e| == 2 {
      assert e[1..] + rest == [e[1]] + rest && ([e[1]] + rest)[1..] == rest;
    } else {
      assert e[1..] + rest == rest;
    }
  }

  /** Escaping neither adds nor removes a space. */
  lemma {:induction false} EscapeKeepsSpacing(prev: char, last: char, s: string)
    requires (prev == ' ') == (last == ' ')
    ensures DoubledAfter(last, EscapeAll(s)) <==> DoubledAfter(prev, s)
    decreases |s|
  {
    hide Escape;
    if s != "" {
      var e, rest := Escape(s[0]), EscapeAll(s[1..]);
      EscapeEnds(s[0]);
      EscapeKeepsSpacing(s[0], e[|e| - 1], s[1..]);
      assert EscapeAll(s) == e + rest;
      DoubledOver(last, e, rest);
    }
  }

  predicate NoFormat(s: string) {
    forall i :: 0 <= i < |s| ==> !IsFormat(s[i])
  }

  lemma {:induction false} DropFormatIsClean(s: string)
    ensures NoFormat(DropFormat(s))
  {
    if s != "" {
      DropFormatIsClean(s[1..]);
    }
  }

  /** Dropping format characters first changes nothing for the squeezing pass. */
  lemma {:induction false} NormalizeSkipsFormat(s: string, inWs: bool)
    ensures NormalizeFrom(DropFormat(s), inWs) == NormalizeFrom(s, inWs)
  {
    if s != "" {
      NormalizeSkipsFormat(s[1..], NextWs(s[0], inWs));
      var rest := DropFormat(s[1..]);
      hide IsFormat;
      if IsFormat(s[0]) {
        assert DropFormat(s) == rest;
      } else {
        assert DropFormat(s) == [s[0]] + rest && ([s[0]] + rest)[1..] == rest;
      }
    }
  }

  predicate Spacing(c: char) {
    c != '\n' && IsWhitespace(c)
  }

  lemma UnlinedCons(p: char, rest: string)
    ensures Unlined([p] + rest) == [if p == '\n' then ' ' else p] + Unlined(rest)
  {
  }

  /** Squeezing removes every double space within a line, and the line ends, made
      spaces afterwards, double up exactly where they stood beside whitespace. */
  lemma {:induction false} SqueezeKeepsGaps(s: string, inWs: bool, prev: char, last: char)
    requires NoFormat(s) && (inWs <==> Spacing(prev)) && (last == ' ' <==> IsWhitespace(prev))
    ensures DoubledAfter(last, Unlined(NormalizeFrom(s, inWs))) <==> GapAfter(prev, s)
  {
    if s != "" {
      var c, rest := s[0], NormalizeFrom(s[1..], NextWs(s[0], inWs));
      assert !IsFormat(c);
      hide IsFormat;
      if Spacing(c) && inWs {
        SqueezeKeepsGaps(s[1..], true, c, last);
        assert Piece(c, inWs) + rest == rest;
      } else {
        var p := if Spacing(c) then ' ' else c;
        var out := if p == '\n' then ' ' else p;
        SqueezeKeepsGaps(s[1..], Spacing(c), c, out);
        assert NormalizeFrom(s, inWs) == [p] + rest;
        hide NormalizeFrom, NextWs, Piece;
        UnlinedCons(p, rest);
        assert ([out] + Unlined(rest))[1..] == Unlined(rest);
        assert out == ' ' <==> IsWhitespace(c);
        assert last == ' ' && out == ' ' ==> c == '\n' || prev == '\n';
      }
    }
  }

  // ----------------------------------------------------- trimming, any time

  lemma {:induction false} TrimStartUnlined(s: string)
    ensures TrimStart(Unlined(s)) == Unlined(TrimStart(s))
  {
    if s != "" {
      TrimStartUnlined(s[1..]);
      assert Unlined(s)[1..] == Unlined(s[1..]);
    }
  }

  lemma {:induction false} TrimEndUnlined(s: string)
    ensures TrimEnd(Unlined(s)) == Unlined(TrimEnd(s))
    decreases |s|
  {
    if s != "" {
      var init := s[..|s| - 1];
      TrimEndUnlined(init);
      assert Unlined(s)[..|s| - 1] == Unlined(init);
    }
  }

  lemma {:induction false} TrimStartNormalized(s: string, inWs: bool)
    requires NoFormat(s)
    ensures TrimStart(NormalizeFrom(s, inWs)) == NormalizeFrom(TrimStart(s), false)
  {
    if s != "" {
      var c := s[0];
      assert !IsFormat(c);
      hide IsFormat;
      TrimStartNormalized(s[1..], NextWs(c, inWs));
      var rest := NormalizeFrom(s[1..], NextWs(c, inWs));
      if IsWhitespace(c) {
        if Piece(c, inWs) == "" {
          assert NormalizeFrom(s, inWs) == rest;
        } else {
          assert NormalizeFrom(s, inWs)[1..] == rest;
        }
      }
    }
  }

  function WsAfter(s: string, inWs: bool): bool {
    if s == "" then inWs else WsAfter(s[1..], NextWs(s[0], inWs))
  }

  lemma {:induction false} NormalizeSnoc(s: string, c: char, inWs: bool)
    ensures NormalizeFrom(s + [c], inWs) == NormalizeFrom(s, inWs) + Piece(c, WsAfter(s, inWs))
  {
    hide Piece, NextWs;
    if s == "" {
      assert s + [c] == [c] && [c][1..] == "";
      assert NormalizeFrom([c], inWs) == Piece(c, inWs) + NormalizeFrom("", NextWs(c, inWs));
    } else {
      assert (s + [c])[1..] == s[1..] + [c];
      NormalizeSnoc(s[1..], c, NextWs(s[0], inWs));
    }
  }

  lemma {:induction false} TrimEndNormalized(s: string, inWs: bool)
    requires NoFormat(s)
    ensures TrimEnd(NormalizeFrom(s, inWs)) == NormalizeFrom(TrimEnd(s), inWs)
    decreases |s|
  {
    if s != "" {
      var init, c := s[..|s| - 1], s[|s| - 1];
      assert s == init + [c] && !IsFormat(c);
      TrimEndNormalized(init, inWs);
      NormalizeSnoc(init, c, inWs);
      hide IsFormat, NormalizeFrom;
      var out, piece := NormalizeFrom(init, inWs), Piece(c, WsAfter(init, inWs));
      if piece == "" {
        assert out + piece == out;
      } else {
        assert |piece| == 1 && (out + piece)[..|out + piece| - 1] == out;
      }
    }
  }

  lemma {:induction false} TrimIsClean(s: string)
    requires NoFormat(s)
    ensures NoFormat(Trim(s)) && NoFormat(TrimStart(s))
  {
    TrimStartKeeps(s);
    TrimEndKeeps(TrimStart(s));
    var t := TrimStart(s);
    forall i | 0 <= i < |t| ensures !IsFormat(t[i]) {
      assert t[i] in s;
    }
    forall i | 0 <= i < |Trim(s)| ensures !IsFormat(Trim(s)[i]) {
      assert Trim(s)[i] in t;
    }
  }

  /** The unescaped inline form, computed from what the reader sees. */
  lemma FlatOfVisible(s: string)
    ensures Flat(s) == Unlined(Normalized(Visible(s)))
  {
    var d := DropControls(s);
    var k := DropFormat(d);
    DropFormatIsClean(d);
    NormalizeSkipsFormat(d, false);
    TrimStartUnlined(Normalized(k));
    TrimEndUnlined(TrimStart(Normalized(k)));
    TrimStartNormalized(k, false);
    TrimIsClean(k);
    TrimEndNormalized(TrimStart(k), false);
  }

  /** The promise is kept exactly for the titles in which, as the reader sees
      them, no line end has whitespace beside it. */
  lemma SingleSpacedExactly(s: string)
    ensures SingleSpaced(Sanitized(s)) <==> !LineEndInGap(Visible(s))
  {
    var v, mark := Visible(s), 'x';
    DropFormatIsClean(DropControls(s));
    TrimIsClean(DropFormat(DropControls(s)));
    FlatOfVisible(s);
    SqueezeKeepsGaps(v, false, mark, mark);
    EscapeKeepsSpacing(mark, mark, Flat(s));
    hide *;
    DoubledIs(mark, Sanitized(s));
    SingleSpacedCons(mark, Sanitized(s));
    GapIs(mark, v);
    GapCons(mark, v);
    NoGapFirst(mark, v);
  }

  lemma NoGapFirst(mark: char, s: string)
    requires !IsWhitespace(mark)
    ensures s != "" ==> !IsGap(mark, s[0])
  {
  }

  predicate Untouched(c: char) {
    !IsForbiddenControl(c) && !IsFormat(c) && (IsWhitespace(c) ==> c == ' ' || c == '\n') && Escape(c) == [c]
  }

  lemma {:induction false} PassesLeave(s: string, inWs: bool)
    requires (forall i :: 0 <= i < |s| ==> Untouched(s[i])) && SingleSpaced(s) && (inWs && s != "" ==> s[0] != ' ')
    ensures DropControls(s) == s && NormalizeFrom(s, inWs) == s && EscapeAll(s) == s
  {
    if s != "" {
      assert Untouched(s[0]) && [s[0]] + s[1..] == s;
      SingleSpacedCons(s[0], s[1..]);
      PassesLeave(s[1..], NextWs(s[0], inWs));
    }
  }

  lemma {:induction false} EscapeLeaves(s: string)
    requires forall i :: 0 <= i < |s| ==> Untouched(s[i])
    ensures EscapeAll(s) == s
  {
    if s != "" {
      assert Untouched(s[0]);
      EscapeLeaves(s[1..]);
    }
  }

  lemma TrimLeaves(s: string)
    requires s != "" && !IsWhitespace(s[0]) && !IsWhitespace(s[|s| - 1])
    ensures Trim(s) == s
  {
  }

  lemma PlainUntouched(c: char)
    requires c == 'a' || c == 'b' || c == ' ' || c == '\n'
    ensures Untouched(c)
  {
  }

  lemma PlainParts(s: string)
    ensures Sanitized(s) == EscapeAll(Trim(Unlined(NormalizeFrom(DropControls(s), false))))
  {
    hide DropControls, NormalizeFrom, Trim, EscapeAll, Unlined;
  }

  lemma UnlinedDoubles(s: string)
    requires |s| == 4 && s[0] == 'a' && s[1] == '\n' && (s[2] == ' ' || s[2] == '\n') && s[3] == 'b'
    ensures Unlined(s) == "a  b" && SingleSpaced(s)
  {
  }

  lemma Doubles(s: string)
    requires |s| == 4 && s[0] == 'a' && s[1] == '\n' && (s[2] == ' ' || s[2] == '\n') && s[3] == 'b'
    ensures Sanitized(s) == "a  b"
  {
    hide *;
    var u := "a  b";
    assert |u| == 4 && u[0] == 'a' && u[1] == ' ' && u[2] == ' ' && u[3] == 'b';
    forall c | c == 'a' || c == 'b' || c == ' ' || c == '\n' ensures Untouched(c) {
      PlainUntouched(c);
    }
    UnlinedDoubles(s);
    PassesLeave(s, false);
    EscapeLeaves(u);
    BothEndsPlain(u);
    TrimLeaves(u);
    PlainParts(s);
  }

  lemma BothEndsPlain(u: string)
    requires |u| == 4 && u[0] == 'a' && u[3] == 'b'
    ensures !IsWhitespace(u[0]) && !IsWhitespace(u[|u| - 1])
  {
  }

  /** Two titles for which it is not kept. */
  lemma SpacesCanDouble()
    ensures Sanitized("a\n b") == "a  b" && Sanitized("a\n\nb") == "a  b"
    ensures !SingleSpaced("a  b")
  {
    Doubles("a\n b");
    Doubles("a\n\nb");
    assert "a  b"[1] == ' ' && "a  b"[1 + 1] == ' ';
  }
}
