/** Cron expressions as the reconciler compares them: blind to the amount of
    whitespace between fields and to letter case. */
module Cron {
  import opened KernelKey

  /** The Unicode White_Space property. */
  predicate IsWhitespace(c: char) {
    || '\U{9}' <= c <= '\U{D}' || c == ' ' || c == '\U{85}' || c == '\U{A0}' || c == '\U{1680}'
    || '\U{2000}' <= c <= '\U{200A}' || c == '\U{2028}' || c == '\U{2029}' || c == '\U{202F}'
    || c == '\U{205F}' || c == '\U{3000}'
  }

  predicate NoWhitespace(s: string) {
    forall i :: 0 <= i < |s| ==> !IsWhitespace(s[i])
  }

  /** `split_whitespace`, with `cur` the word read so far. */
  function WordsFrom(cur: string, s: string): (ws: seq<string>)
    requires NoWhitespace(cur)
    ensures forall i :: 0 <= i < |ws| ==> ws[i] != "" && NoWhitespace(ws[i])
    decreases |s|
  {
    if s == "" then (if cur == "" then [] else [cur])
    else if IsWhitespace(s[0]) then (if cur == "" then [] else [cur]) + WordsFrom("", s[1..])
    else WordsFrom(cur + [s[0]], s[1..])
  }

  function Words(s: string): (ws: seq<string>)
    ensures forall i :: 0 <= i < |ws| ==> ws[i] != "" && NoWhitespace(ws[i])
  {
    WordsFrom("", s)
  }

  function Join(ws: seq<string>): string {
    if ws == [] then "" else if |ws| == 1 then ws[0] else ws[0] + " " + Join(ws[1..])
  }

  /** Letter folding on cron's own alphabet, which is ASCII. */
  function NormalizeCron(expr: string): string {
    AsciiUpper(Join(Words(expr)))
  }

  function UpperWords(ws: seq<string>): seq<string> {
    seq(|ws|, i requires 0 <= i < |ws| => AsciiUpper(ws[i]))
  }

  lemma UpperWhitespace(c: char)
    ensures IsWhitespace(UpperChar(c)) <==> IsWhitespace(c)
  {
  }

  lemma UpperNoWhitespace(s: string)
    requires NoWhitespace(s)
    ensures NoWhitespace(AsciiUpper(s))
  {
    forall i | 0 <= i < |s| ensures !IsWhitespace(AsciiUpper(s)[i]) {
      UpperWhitespace(s[i]);
    }
  }

  /** Reading one whole word off the front. */
  lemma {:induction false} WordsEat(cur: string, w: string, rest: string)
    requires NoWhitespace(cur) && NoWhitespace(w)
    ensures NoWhitespace(cur + w)
    ensures WordsFrom(cur, w + rest) == WordsFrom(cur + w, rest)
    decreases |w|
  {
    if w == "" {
      assert w + rest == rest && cur + w == cur;
    } else {
      assert (w + rest)[0] == w[0] && (w + rest)[1..] == w[1..] + rest;
      assert cur + [w[0]] + w[1..] == cur + w;
      WordsEat(cur + [w[0]], w[1..], rest);
    }
  }

  /** Reading one character, or none, off the front. */
  lemma WordsStep(cur: string, head: string, rest: string)
    requires NoWhitespace(cur) && |head| <= 1
    ensures head == "" ==> WordsFrom(cur, head + rest) == WordsFrom(cur, rest)
    ensures head != "" && IsWhitespace(head[0]) ==>
              WordsFrom(cur, head + rest) == (if cur == "" then [] else [cur]) + WordsFrom("", rest)
    ensures head != "" && !IsWhitespace(head[0]) ==>
              NoWhitespace(cur + head) && WordsFrom(cur, head + rest) == WordsFrom(cur + head, rest)
  {
    hide IsWhitespace;
    if head == "" {
      assert head + rest == rest;
    } else {
      assert (head + rest)[0] == head[0] && (head + rest)[1..] == rest && [head[0]] == head;
    }
  }

  lemma {:induction false} WordsOfJoin(ws: seq<string>)
    requires forall i :: 0 <= i < |ws| ==> ws[i] != "" && NoWhitespace(ws[i])
    ensures Words(Join(ws)) == ws
  {
    if |ws| == 1 {
      WordsEat("", ws[0], "");
      assert ws[0] + "" == ws[0] && "" + ws[0] == ws[0];
    } else if |ws| > 1 {
      var tail := " " + Join(ws[1..]);
      assert Join(ws) == ws[0] + tail;
      WordsEat("", ws[0], tail);
      assert "" + ws[0] == ws[0] && tail[1..] == Join(ws[1..]);
      WordsOfJoin(ws[1..]);
    }
  }

  lemma {:induction false} UpperOfJoin(ws: seq<string>)
    ensures AsciiUpper(Join(ws)) == Join(UpperWords(ws))
  {
    if |ws| == 1 {
      assert UpperWords(ws)[0] == AsciiUpper(ws[0]);
    } else if |ws| > 1 {
      UpperOfJoin(ws[1..]);
      assert UpperWords(ws)[1..] == UpperWords(ws[1..]);
      var a, b := AsciiUpper(Join(ws)), Join(UpperWords(ws));
      assert b == AsciiUpper(ws[0]) + " " + AsciiUpper(Join(ws[1..]));
      assert a == AsciiUpper(ws[0]) + " " + AsciiUpper(Join(ws[1..]));
    }
  }

  /** Two expressions normalize alike exactly when their fields are the same up
      to case: no drift is imagined and none is missed. */
  lemma NormalizeCronExact(a: string, b: string)
    ensures NormalizeCron(a) == NormalizeCron(b) <==> UpperWords(Words(a)) == UpperWords(Words(b))
  {
    UpperOfJoin(Words(a));
    UpperOfJoin(Words(b));
    forall s: string ensures Words(Join(UpperWords(Words(s)))) == UpperWords(Words(s)) {
      var ws := Words(s);
      forall i | 0 <= i < |ws| ensures UpperWords(ws)[i] != "" && NoWhitespace(UpperWords(ws)[i]) {
        UpperNoWhitespace(ws[i]);
      }
      WordsOfJoin(UpperWords(ws));
    }
  }

  /** Trimming and re-spacing never counts as drift, and normalizing is final. */
  lemma NormalizeCronStable(expr: string)
    ensures NormalizeCron(NormalizeCron(expr)) == NormalizeCron(expr)
  {
    var ws := Words(expr);
    UpperOfJoin(ws);
    forall i | 0 <= i < |ws| ensures UpperWords(ws)[i] != "" && NoWhitespace(UpperWords(ws)[i]) {
      UpperNoWhitespace(ws[i]);
    }
    WordsOfJoin(UpperWords(ws));
    assert UpperWords(UpperWords(ws)) == UpperWords(ws) by {
      forall i | 0 <= i < |ws| ensures UpperWords(UpperWords(ws))[i] == UpperWords(ws)[i] {
        assert AsciiUpper(AsciiUpper(ws[i])) == AsciiUpper(ws[i]);
      }
    }
    UpperOfJoin(UpperWords(ws));
  }

  /** `str::trim`. */
  function Trim(s: string): string {
    TrimEnd(TrimStart(s))
  }

  function TrimStart(s: string): string {
    if s != "" && IsWhitespace(s[0]) then TrimStart(s[1..]) else s
  }

  function TrimEnd(s: string): string {
    if s != "" && IsWhitespace(s[|s| - 1]) then TrimEnd(s[..|s| - 1]) else s
  }
}
