/** Reading the facts back: which number of the draft stands where, under which
    words and under whose name. */
module FactsReading {
  import opened Decimal
  import opened Text
  import opened Facts

  // --------------------------------------------------------- a reader of numbers

  /** How many digits stand in front. */
  function DigitRun(s: string): (k: nat)
    ensures k <= |s| && AllDigits(s[..k]) && (k < |s| ==> !IsDigit(s[k]))
  {
    if s == "" || !IsDigit(s[0]) then 0
    else
      var k := 1 + DigitRun(s[1..]);
      assert s[..k] == [s[0]] + s[1..][..k - 1];
      k
  }

  /** A number in front: its digits, and its sign if it has one. */
  predicate NumberFirst(s: string) {
    s != "" && (IsDigit(s[0]) || (s[0] == '-' && |s| > 1 && IsDigit(s[1])))
  }

  function Minus(n: nat): int {
    0 - n
  }

  /** The numbers written in a text, in order, signs included. */
  function Numbers(s: string): seq<int>
    decreases |s|
  {
    if s == "" then []
    else if IsDigit(s[0]) then [Read(s[..DigitRun(s)])] + Numbers(s[DigitRun(s)..])
    else if NumberFirst(s) then [Minus(Read(s[1..][..DigitRun(s[1..])]))] + Numbers(s[1 + DigitRun(s[1..])..])
    else Numbers(s[1..])
  }

  /** The text around the numbers, with a mark in the place of each. */
  function Wording(s: string): string
    decreases |s|
  {
    if s == "" then ""
    else if IsDigit(s[0]) then "#" + Wording(s[DigitRun(s)..])
    else if NumberFirst(s) then "#" + Wording(s[1 + DigitRun(s[1..])..])
    else [s[0]] + Wording(s[1..])
  }

  predicate NoNumber(s: string) {
    forall i :: 0 <= i < |s| ==> !IsDigit(s[i]) && s[i] != '-'
  }

  lemma {:induction false} SkipsText(a: string, rest: string)
    requires NoNumber(a)
    ensures Numbers(a + rest) == Numbers(rest) && Wording(a + rest) == a + Wording(rest)
  {
    if a == "" {
      assert a + rest == rest;
    } else {
      assert (a + rest)[0] == a[0] && (a + rest)[1..] == a[1..] + rest;
      SkipsText(a[1..], rest);
      assert [a[0]] + (a[1..] + Wording(rest)) == a + Wording(rest);
    }
  }

  lemma {:induction false} RunOf(a: string, rest: string)
    requires AllDigits(a) && (rest == "" || !IsDigit(rest[0]))
    ensures DigitRun(a + rest) == |a|
  {
    if a == "" {
      assert a + rest == rest;
    } else {
      assert (a + rest)[0] == a[0] && (a + rest)[1..] == a[1..] + rest;
      RunOf(a[1..], rest);
    }
  }

  lemma ReadsPlain(s: string, k: nat)
    requires s != "" && IsDigit(s[0]) && k == DigitRun(s)
    ensures Numbers(s) == [Read(s[..k])] + Numbers(s[k..]) && Wording(s) == "#" + Wording(s[k..])
  {
    hide Read;
  }

  lemma ReadsSigned(s: string, k: nat)
    requires |s| > 1 && s[0] == '-' && IsDigit(s[1]) && k == DigitRun(s[1..])
    ensures Numbers(s) == [Minus(Read(s[1..][..k]))] + Numbers(s[1 + k..]) && Wording(s) == "#" + Wording(s[1 + k..])
  {
    hide Read;
  }

  lemma PrintedFirst(n: nat)
    ensures AllDigits(Print(n)) && Print(n) != "" && IsDigit(Print(n)[0])
  {
    hide Print;
  }

  lemma PrintedIs(n: int)
    ensures PrintInt(n) == if n < 0 then "-" + Print(-n) else Print(n)
    ensures n < 0 ==> Minus(-n) == n
  {
    hide Print;
  }

  /** A printed number reads as itself, whatever text follows it. */
  lemma ReadsNumber(n: int, rest: string)
    requires rest == "" || !IsDigit(rest[0])
    ensures Numbers(PrintInt(n) + rest) == [n] + Numbers(rest) && Wording(PrintInt(n) + rest) == "#" + Wording(rest)
  {
    hide *;
    var size: nat := if n < 0 then -n else n;
    var digits := Print(size);
    ReadPrint(size);
    PrintedFirst(size);
    RunOf(digits, rest);
    PrintedIs(n);
    var all := digits + rest;
    assert all[..|digits|] == digits && all[|digits|..] == rest && all[0] == digits[0];
    if n < 0 {
      var s := PrintInt(n) + rest;
      assert s == ['-'] + all;
      assert s[1..] == all && s[1 + |digits|..] == rest && s[1] == digits[0];
      ReadsSigned(s, |digits|);
    } else {
      ReadsPlain(all, |digits|);
    }
  }

  lemma ReadsEnd(n: int)
    ensures Numbers(PrintInt(n)) == [n] && Wording(PrintInt(n)) == "#"
  {
    ReadsNumber(n, "");
    assert PrintInt(n) + "" == PrintInt(n);
  }

  /** A number between two stretches of text. */
  lemma ReadsBetween(a: string, n: int, b: string, rest: string)
    requires NoNumber(a) && NoNumber(b) && b != ""
    ensures Numbers(a + PrintInt(n) + b + rest) == [n] + Numbers(rest)
    ensures Wording(a + PrintInt(n) + b + rest) == a + "#" + b + Wording(rest)
  {
    hide *;
    FirstIsNoDigit(b, rest);
    var tail := b + rest;
    assert a + PrintInt(n) + b + rest == a + (PrintInt(n) + tail);
    SkipsText(a, PrintInt(n) + tail);
    ReadsNumber(n, tail);
    SkipsText(b, rest);
  }

  lemma FirstIsNoDigit(b: string, rest: string)
    requires NoNumber(b) && b != ""
    ensures b + rest != "" && !IsDigit((b + rest)[0])
  {
  }

  // ------------------------------------------------------ what the facts say

  lemma NothingReads()
    ensures Numbers("") == [] && Wording("") == ""
  {
  }

  lemma HoursAre(minutes: int)
    ensures var m := if minutes < 0 then 0 else minutes;
            HourMinutes(minutes) == PrintInt(m / 60) + " 小时 " + PrintInt(m % 60) + " 分钟"
  {
    hide Print;
  }

  lemma MixRead(h: int, m: int)
    ensures var value := PrintInt(h) + " 小时 " + PrintInt(m) + " 分钟";
            Numbers(value) == [h, m] && Wording(value) == "# 小时 # 分钟"
  {
    hide *;
    var a, b := PrintInt(h), PrintInt(m);
    NothingReads();
    NoNumberIn();
    ReadsBetween("", m, " 分钟", "");
    assert "" + b + " 分钟" + "" == b + " 分钟";
    ReadsBetween("", h, " 小时 ", b + " 分钟");
    assert "" + a + " 小时 " + (b + " 分钟") == a + " 小时 " + b + " 分钟";
    assert "" + "#" + " 小时 " + ("" + "#" + " 分钟" + "") == "# 小时 # 分钟";
  }

  lemma HoursRead(minutes: int)
    ensures var m := if minutes < 0 then 0 else minutes;
            Numbers(HourMinutes(minutes)) == [m / 60, m % 60] && Wording(HourMinutes(minutes)) == "# 小时 # 分钟"
  {
    hide *;
    var m := if minutes < 0 then 0 else minutes;
    HoursAre(minutes);
    MixRead(m / 60, m % 60);
  }

  lemma NoNumberIn()
    ensures NoNumber("") && NoNumber(" 小时 ") && NoNumber(" 分钟") && NoNumber("触发 ") && NoNumber(" 次 / 完成 ") && NoNumber(" 次")
  {
  }

  lemma CountsRead(fired: int, completed: int)
    ensures var value := "触发 " + PrintInt(fired) + " 次 / 完成 " + PrintInt(completed) + " 次";
            Numbers(value) == [fired, completed] && Wording(value) == "触发 # 次 / 完成 # 次"
  {
    hide *;
    var a, b := PrintInt(fired), PrintInt(completed);
    NothingReads();
    NoNumberIn();
    ReadsBetween("", completed, " 次", "");
    assert "" + b + " 次" + "" == b + " 次";
    ReadsBetween("触发 ", fired, " 次 / 完成 ", b + " 次");
    assert "触发 " + a + " 次 / 完成 " + (b + " 次") == "触发 " + a + " 次 / 完成 " + b + " 次";
    assert "触发 " + "#" + " 次 / 完成 " + ("" + "#" + " 次" + "") == "触发 # 次 / 完成 # 次";
  }

  /** The caption stands for this name: a word before it, its inline form in title
      brackets, and a word after. */
  predicate Names(caption: string, before: string, name: string, after: string) {
    caption == before + "「" + Sanitized(name) + "」" + after
  }

  /** Every fact in its place: hours and minutes of each area and then of each
      direction, under its own name or as unassigned; then the number of tasks
      done; then for each routine how often it fired and how often it was
      completed, under its own name. */
  lemma FactsSay(d: Draft, i: nat)
    requires i < |Keyed(Entries(d))|
    ensures var fs := Keyed(Entries(d)); var a, b := |d.byArea|, |d.byArea| + |d.byDirection|; var f := fs[i];
            && |fs| == b + 1 + |d.routines|
            && (i < b ==>
                  var bucket := if i < a then d.byArea[i] else d.byDirection[i - a];
                  var m := if bucket.minutes < 0 then 0 else bucket.minutes;
                  && Numbers(f.value) == [m / 60, m % 60] && Wording(f.value) == "# 小时 # 分钟"
                  && Names(f.caption, if i < a then "领域" else "方向",
                           if bucket.caption.Some? then bucket.caption.value else "未分类", "投入"))
            && (i == b ==> Numbers(f.value) == [d.tasksDone] && Wording(f.value) == "#" && f.caption == "完成任务数")
            && (i > b ==>
                  var r := d.routines[i - b - 1];
                  && Numbers(f.value) == [r.fired, r.completed] && Wording(f.value) == "触发 # 次 / 完成 # 次"
                  && Names(f.caption, "节律", r.caption, ""))
  {
    hide Numbers, Wording, Sanitized, HourMinutes, PrintInt;
    var a, b := |d.byArea|, |d.byArea| + |d.byDirection|;
    if i < a {
      HoursRead(d.byArea[i].minutes);
    } else if i < b {
      HoursRead(d.byDirection[i - a].minutes);
    } else if i == b {
      ReadsEnd(d.tasksDone);
    } else {
      CountsRead(d.routines[i - b - 1].fired, d.routines[i - b - 1].completed);
    }
  }

  /** And so says the unit a narrative shows for it. */
  lemma UnitsSay(f: Fact)
    ensures RenderUnit(f) == "〔" + f.caption + "：" + f.value + "〕"
  {
  }
}
