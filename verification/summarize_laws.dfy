/** What the run of the weekly review leaves alone, writes and reports, in the words
    of the texts themselves. */
module SummarizeLaws {
  import opened Prelude
  import opened Cron
  import opened Facts
  import opened Gate
  import opened Ladder
  import N = Narrative
  import S = NarrativeSafety
  import NT = NarrativeTheorems
  import P = Proposing
  import opened Summarizing
  import TextLaws

  // ------------------------------------------------------------ what it rewrites

  /** One text up to whitespace at the end of either. */
  ghost predicate SameText(a: string, b: string) {
    exists t, x, y :: a == t + x && b == t + y && TextLaws.AllBlank(x) && TextLaws.AllBlank(y)
  }

  lemma {:induction false} BlankTail(t: string, x: string)
    requires TextLaws.AllBlank(x)
    ensures TrimEnd(t + x) == TrimEnd(t)
    decreases |x|
  {
    if x == "" {
      assert t + x == t;
    } else {
      var init := x[..|x| - 1];
      assert (t + x)[..|t + x| - 1] == t + init && (t + x)[|t + x| - 1] == x[|x| - 1];
      BlankTail(t, init);
    }
  }

  lemma SameTextExactly(a: string, b: string)
    ensures SameText(a, b) <==> TrimEnd(a) == TrimEnd(b)
  {
    if SameText(a, b) {
      var t, x, y :| a == t + x && b == t + y && TextLaws.AllBlank(x) && TextLaws.AllBlank(y);
      BlankTail(t, x);
      BlankTail(t, y);
    }
    if TrimEnd(a) == TrimEnd(b) {
      var x := TextLaws.TrimEndTakes(a);
      var y := TextLaws.TrimEndTakes(b);
    }
  }

  /** A body may be rewritten exactly if it is blank, or reads like the facts block or
      the automatic draft up to whitespace at its end. */
  lemma RewritableExactly(body: string, draft: Draft, auto: string)
    ensures Rewritable(body, draft, auto) <==>
              TextLaws.AllBlank(body) || SameText(body, FactsOf(draft)) || SameText(body, auto)
  {
    BlankTail("", body[..0]);
    SameTextExactly(body, FactsOf(draft));
    SameTextExactly(body, auto);
    var x := TextLaws.TrimEndTakes(body);
    if TextLaws.AllBlank(body) {
      BlankTail("", body);
      assert "" + body == body;
    }
    var cs := [FactsOf(draft), auto];
    hide FactsOf, TrimEnd, TextLaws.AllBlank, SameText;
    assert cs[0] == FactsOf(draft) && cs[1] == auto;
    assert TrimEnd(body) == "" ==> body == x;
  }

  // ------------------------------------------------------------ what it writes

  /** A line end cuts a text into the lines before and after it. */
  lemma {:induction false} LinesCut(a: string, b: string)
    ensures N.Lines(a + ("\n" + b)) == N.Lines(a) + N.Lines(b)
  {
    var s := a + ("\n" + b);
    LinesOf(s);
    LinesOf(a);
    if a == "" {
      assert s[0] == '\n' && s[1..] == b;
    } else {
      assert s[0] == a[0] && s[1..] == a[1..] + ("\n" + b);
      LinesCut(a[1..], b);
      hide *;
      HeadOfLines(a[0], N.Lines(a[1..]), N.Lines(b));
    }
  }

  lemma LinesOf(s: string)
    ensures s == "" ==> N.Lines(s) == [""]
    ensures s != "" && s[0] == '\n' ==> N.Lines(s) == [""] + N.Lines(s[1..])
    ensures s != "" && s[0] != '\n' ==> N.Lines(s) == [[s[0]] + N.Lines(s[1..])[0]] + N.Lines(s[1..])[1..]
  {
  }

  lemma HeadOfLines(c: char, rest: seq<string>, more: seq<string>)
    requires rest != []
    ensures [[c] + (rest + more)[0]] + (rest + more)[1..] == ([[c] + rest[0]] + rest[1..]) + more
    ensures [""] + (rest + more) == ([""] + rest) + more
  {
  }

  lemma OneLineIs(a: string)
    requires S.OneLine(a)
    ensures N.Lines(a) == [a]
  {
    S.LinesPrepend(a, "");
    assert a + "" == a;
  }

  /** One line in front of a text. */
  lemma FirstLine(a: string, b: string)
    requires S.OneLine(a)
    ensures N.Lines(a + ("\n" + b)) == [a] + N.Lines(b)
  {
    hide *;
    OneLineIs(a);
    LinesCut(a, b);
  }

  predicate IsRow(line: string, f: Fact) {
    line == "- " + f.caption + "：" + f.value
  }

  lemma RowIs(f: Fact) returns (line: string)
    requires S.OneLine(f.caption) && S.OneLine(f.value)
    ensures IsRow(line, f) && S.OneLine(line) && FactLine(f) == line + "\n"
  {
    line := "- " + f.caption + "：" + f.value;
    assert S.OneLine("- ") && S.OneLine("：");
    assert FactLine(f) == line + "\n";
  }

  ghost predicate Rows(ls: seq<string>, fs: seq<Fact>) {
    && |ls| == |fs| + 1 && ls[|fs|] == ""
    && forall i :: 0 <= i < |fs| ==> IsRow(ls[i], fs[i])
  }

  lemma RowsCons(line: string, f: Fact, ls: seq<string>, fs: seq<Fact>)
    requires IsRow(line, f) && Rows(ls, fs)
    ensures Rows([line] + ls, [f] + fs)
  {
    hide IsRow;
  }

  lemma {:induction false} RowsOf(fs: seq<Fact>)
    requires forall i :: 0 <= i < |fs| ==> S.OneLine(fs[i].caption) && S.OneLine(fs[i].value)
    ensures Rows(N.Lines(FactLines(fs)), fs)
  {
    if fs == [] {
      assert N.Lines(FactLines(fs)) == [""];
    } else {
      var line := RowIs(fs[0]);
      RowsOf(fs[1..]);
      FirstFact(fs, line);
      hide *;
      FirstLine(line, FactLines(fs[1..]));
      RowsCons(line, fs[0], N.Lines(FactLines(fs[1..])), fs[1..]);
    }
  }

  lemma FirstFact(fs: seq<Fact>, line: string)
    requires fs != [] && FactLine(fs[0]) == line + "\n"
    ensures FactLines(fs) == line + ("\n" + FactLines(fs[1..])) && [fs[0]] + fs[1..] == fs
  {
    hide FactLine;
    assert line + "\n" + FactLines(fs[1..]) == line + ("\n" + FactLines(fs[1..]));
  }

  /** The facts block, line by line: its heading, a blank line, and every fact. */
  lemma BlockReads(d: Draft)
    requires S.OneLine(d.week)
    ensures var ls, fs := N.Lines(FactsOf(d)), Keyed(Entries(d));
            |ls| == |fs| + 3 && ls[0] == "## " + d.week + " 本周数字" && ls[1] == "" && Rows(ls[2..], fs)
  {
    var fs := Keyed(Entries(d));
    FactsAreOneLine(d);
    RowsOf(fs);
    BlockIs(d.week, fs);
    HeadIsOneLine(d.week);
    NoLine();
    hide *;
    var head, rows := "## " + d.week + " 本周数字", FactLines(fs);
    FirstLine(head, "" + ("\n" + rows));
    FirstLine("", rows);
    ThirdOn(head, "", N.Lines(rows));
    BlockOf(d);
  }

  lemma ThirdOn(a: string, b: string, rest: seq<string>)
    ensures var ls := [a] + ([b] + rest); ls[0] == a && ls[1] == b && ls[2..] == rest && |ls| == |rest| + 2
  {
  }

  lemma BlockOf(d: Draft)
    ensures FactsOf(d) == FactsBlock(d.week, Keyed(Entries(d)))
    ensures forall ls, fs :: Rows(ls, fs) ==> |ls| == |fs| + 1
  {
    hide FactsBlock, Keyed, Entries, IsRow;
  }

  lemma BlockIs(week: string, fs: seq<Fact>)
    ensures FactsBlock(week, fs) == "## " + week + " 本周数字" + ("\n" + ("" + ("\n" + FactLines(fs))))
  {
    hide FactLines;
    var rows, head := FactLines(fs), "## " + week + " 本周数字";
    assert "## " + week + " " + FACTS_HEADING_WORD == head;
    assert head + "\n\n" + rows == head + ("\n" + ("" + ("\n" + rows)));
  }

  lemma NoLine()
    ensures S.OneLine("")
  {
  }

  lemma HeadIsOneLine(week: string)
    requires S.OneLine(week)
    ensures S.OneLine("## " + week + " 本周数字")
  {
    assert S.OneLine("## ") && S.OneLine(" 本周数字");
  }

  lemma FactsAreOneLine(d: Draft)
    ensures var fs := Keyed(Entries(d));
            forall i :: 0 <= i < |fs| ==> S.OneLine(fs[i].caption) && S.OneLine(fs[i].value)
  {
    NT.DraftFactsOk(d);
    hide Entries, Keyed;
    var fs := Keyed(Entries(d));
    forall i | 0 <= i < |fs| ensures S.OneLine(fs[i].caption) && S.OneLine(fs[i].value) {
      assert AllUnitInner(fs[i].caption) && AllUnitInner(fs[i].value);
    }
  }

  /** A body with a narrative: the facts block's lines, the narrative's heading between
      blank lines, and the narrative's own lines. Without one it is the facts block. */
  lemma BodyReads(facts: string, n: string)
    ensures N.Lines(ComposeBody(facts, Some(n))) == N.Lines(facts) + (["## 叙述", ""] + (N.Lines(n) + [""]))
    ensures ComposeBody(facts, None) == facts
  {
    var tail := n + ("\n" + "");
    assert ComposeBody(facts, Some(n)) == facts + ("\n" + ("## 叙述" + ("\n" + ("" + ("\n" + tail)))));
    assert S.OneLine("## 叙述");
    hide *;
    NoLine();
    LinesCut(facts, "## 叙述" + ("\n" + ("" + ("\n" + tail))));
    FirstLine("## 叙述", "" + ("\n" + tail));
    FirstLine("", tail);
    LinesCut(n, "");
    OneLineIs("");
    assert ["## 叙述"] + ([""] + (N.Lines(n) + [""])) == ["## 叙述", ""] + (N.Lines(n) + [""]);
  }

  // ------------------------------------------------------------ what it reports

  /** What a run asks for and reports, whatever its item came to: a rewrite is
      submitted exactly if a body was produced whose digest is new, against the
      digest of the body that was read; and the last row is good exactly if
      nothing was submitted or what was is taken. */
  lemma RunSays(out: Outcome<Option<string>>, review: Id, body: string, facts: string, digest: string -> string, fate: P.Fate)
    ensures var op := Submission(out, review, body, facts, digest);
            var result, last := ResultOf(out, op.Some?, fate), LastRow(out, op.Some?, fate);
            && (op.Some? <==> out.Produced? && digest(ComposeBody(facts, out.value)) != digest(body))
            && (op.Some? ==> op.value.DraftReviewBody? && op.value.review == review && op.value.base == digest(body)
                             && op.value.body == ComposeBody(facts, out.value))
            && (result == Proposed <==> op.Some? && fate == P.Taken)
            && (result == Rejected <==> op.Some? && fate != P.Taken)
            && (result == NothingToDo <==> out.Nothing? || (out.Produced? && op.None?))
            && (result == Left <==> out.Deferred?) && (result == Cut <==> out.Aborted?)
            && |last| == (if out.Produced? then 1 else 0)
            && (out.Produced? ==>
                  && last[0].engine == out.rec.engine && last[0].fallbackFrom == out.rec.fallbackFrom
                  && last[0].served == out.rec.served && last[0].prompt == out.rec.prompt && last[0].completion == out.rec.completion
                  && (op.None? || fate == P.Taken ==> last[0].ok == out.rec.ok && last[0].errorKind == out.rec.errorKind)
                  && (op.Some? && fate != P.Taken ==>
                        !last[0].ok && last[0].errorKind == Some(if fate == P.Refused then "rejected_by_precheck" else "submit_store_error")))
  {
    hide ComposeBody;
  }

  /** A step counts with its own turn's clock, answer and switch; a reply that was
      read and filled produces that text, any other is bad output; and the rule
      always has a body without a narrative to offer. */
  lemma TurnSays(turns: seq<Turn>, fs: seq<Fact>, titles: seq<string>, numeric: char -> bool, k: nat)
    requires k < |turns|
    ensures var act, turn := ActsOf(turns, fs, titles, numeric)[k], turns[k];
            && act.at == turn.at && act.answer == turn.answer && act.switchOn == turn.switchOn && act.rule == Some(None)
            && (act.parsed.Ok? <==> turn.narrative.Some? && N.Filled(turn.narrative.value, fs, titles, numeric).Ok?)
            && (act.parsed.Ok? ==> act.parsed.value == Some(N.Filled(turn.narrative.value, fs, titles, numeric).value))
            && (act.parsed.Err? ==> act.parsed.error == "bad_output")
  {
    hide N.Filled;
  }
}
