/** The rules a task's title is classified by without a model, and the recheck of
    a model's choice. */
module Reflexes {
  import opened Prelude
  import opened KernelKey
  import opened Decimal

  // ------------------------------------------------------------- tokenizing

  predicate IsLetter(c: char) {
    IsAsciiLower(c) || IsAsciiUpper(c)
  }

  predicate IsAlnum(c: char) {
    IsLetter(c) || '0' <= c <= '9'
  }

  predicate IsCjk(c: char) {
    var n := c as int;
    || 0x4E00 <= n <= 0x9FFF || 0x3400 <= n <= 0x4DBF || 0x3040 <= n <= 0x30FF || 0xAC00 <= n <= 0xD7A3
    || 0xF900 <= n <= 0xFAFF || 0x20000 <= n <= 0x2FA1F
  }

  predicate AllAlnum(s: string) {
    forall i :: 0 <= i < |s| ==> IsAlnum(s[i])
  }

  predicate HasLetter(s: string) {
    exists i :: 0 <= i < |s| && IsLetter(s[i])
  }

  /** `s[a..b]` is a maximal run of ASCII letters and digits. */
  predicate IsRun(s: string, a: nat, b: nat) {
    a <= b <= |s| && AllAlnum(s[a..b]) && (a == 0 || !IsAlnum(s[a - 1])) && (b == |s| || !IsAlnum(s[b]))
  }

  /** A run counts as a word with three characters or more, one of them a letter. */
  predicate IsWord(w: string) {
    |w| >= 3 && HasLetter(w)
  }

  /** The words whose runs end before position `n`. */
  ghost function WordsBefore(s: string, n: nat): set<string> {
    set a, b | 0 <= a <= b <= |s| && b < n && IsRun(s, a, b) && IsWord(s[a..b]) :: AsciiLower(s[a..b])
  }

  /** A text's words: its maximal runs of ASCII letters and digits that are at
      least three long and hold a letter, in lower case. */
  ghost function Words(s: string): set<string> {
    WordsBefore(s, |s| + 1)
  }

  predicate IsPair(s: string, i: nat) {
    i + 1 < |s| && IsCjk(s[i]) && IsCjk(s[i + 1])
  }

  ghost function BigramsBefore(s: string, n: nat): set<string> {
    set i | 0 <= i < n && IsPair(s, i) :: s[i..i + 2]
  }

  /** A text's bigrams: its pairs of adjacent CJK characters. */
  ghost function Bigrams(s: string): set<string> {
    BigramsBefore(s, |s|)
  }

  method FinalizeWord(cur: string, words: set<string>) returns (words': set<string>)
    ensures words' == if IsWord(cur) then words + {cur} else words
  {
    if |cur| >= 3 && (exists i :: 0 <= i < |cur| && IsLetter(cur[i])) {
      return words + {cur};
    }
    return words;
  }

  lemma LowerKeepsLetters(s: string)
    ensures IsWord(AsciiLower(s)) == IsWord(s)
  {
    var t := AsciiLower(s);
    assert |t| == |s|;
    forall i | 0 <= i < |s| ensures IsLetter(t[i]) == IsLetter(s[i]) { }
    if HasLetter(s) {
      var i :| 0 <= i < |s| && IsLetter(s[i]);
      assert IsLetter(t[i]);
    }
    if HasLetter(t) {
      var i :| 0 <= i < |t| && IsLetter(t[i]);
      assert IsLetter(s[i]);
    }
  }

  lemma RunIsAlnum(s: string, a: nat, b: nat)
    requires IsRun(s, a, b)
    ensures forall k :: a <= k < b ==> IsAlnum(s[k])
  {
    forall k | a <= k < b ensures IsAlnum(s[k]) {
      assert s[a..b][k - a] == s[k];
    }
  }

  lemma SameRun(s: string, a: nat, b: nat, i: nat)
    requires IsRun(s, a, i) && IsRun(s, b, i)
    ensures a == b
  {
    RunIsAlnum(s, a, i);
    RunIsAlnum(s, b, i);
  }

  /** The run that ends at `i` is the one the buffer holds. */
  lemma RunEndsHere(s: string, a: nat, i: nat)
    requires a <= i <= |s| && IsRun(s, a, i)
    ensures WordsBefore(s, i + 1) == WordsBefore(s, i) + (if IsWord(s[a..i]) then {AsciiLower(s[a..i])} else {})
  {
    forall b | 0 <= b <= i && IsRun(s, b, i) && IsWord(s[b..i]) ensures b == a {
      SameRun(s, a, b, i);
    }
  }

  lemma NoRunEndsHere(s: string, i: nat)
    requires i < |s| && IsAlnum(s[i])
    ensures WordsBefore(s, i + 1) == WordsBefore(s, i)
  {
  }

  /** The run that the buffer holds at position `i`. */
  predicate InRun(s: string, start: nat, i: nat) {
    start <= i <= |s| && AllAlnum(s[start..i]) && (start == 0 || !IsAlnum(s[start - 1]))
  }

  lemma RunGoesOn(s: string, start: nat, i: nat)
    requires i < |s| && InRun(s, start, i) && IsAlnum(s[i])
    ensures InRun(s, start, i + 1) && AsciiLower(s[start..i + 1]) == AsciiLower(s[start..i]) + [LowerChar(s[i])]
    ensures WordsBefore(s, i + 1) == WordsBefore(s, i) && BigramsBefore(s, i + 1) == BigramsBefore(s, i)
  {
    assert s[start..i + 1] == s[start..i] + [s[i]];
    NoRunEndsHere(s, i);
    AlnumIsNotCjk(s, i);
    hide WordsBefore, BigramsBefore, IsAlnum;
  }

  lemma RunEnds(s: string, start: nat, i: nat)
    requires InRun(s, start, i) && (i < |s| ==> !IsAlnum(s[i]))
    ensures var w := AsciiLower(s[start..i]);
            WordsBefore(s, i + 1) == if IsWord(w) then WordsBefore(s, i) + {w} else WordsBefore(s, i)
  {
    hide WordsBefore, IsAlnum, AllAlnum, IsWord;
    RunEndsHere(s, start, i);
    LowerKeepsLetters(s[start..i]);
  }

  lemma RunStarts(s: string, i: nat)
    requires i <= |s| && (i == 0 || !IsAlnum(s[i - 1]))
    ensures InRun(s, i, i) && AsciiLower(s[i..i]) == ""
  {
  }

  lemma NothingBefore(s: string)
    ensures WordsBefore(s, 0) == {} && BigramsBefore(s, 0) == {}
    ensures WordsBefore(s, |s| + 1) == Words(s) && BigramsBefore(s, |s|) == Bigrams(s)
  {
  }

  method Tokenize(s: string) returns (words: set<string>, bigrams: set<string>)
    ensures words == Words(s) && bigrams == Bigrams(s)
  {
    hide *;
    NothingBefore(s);
    RunStarts(s, 0);
    words, bigrams := {}, {};
    var cur := "";
    ghost var start := 0;
    for i := 0 to |s|
      invariant 0 <= start <= i && InRun(s, start, i) && cur == AsciiLower(s[start..i])
      invariant words == WordsBefore(s, i) && bigrams == BigramsBefore(s, i)
    {
      var c := s[i];
      if IsAlnum(c) {
        RunGoesOn(s, start, i);
        cur := cur + [LowerChar(c)];
        continue;
      }
      RunEnds(s, start, i);
      words := FinalizeWord(cur, words);
      RunStarts(s, i + 1);
      cur := "";
      start := i + 1;
      NextBigram(s, i);
      if IsCjk(c) && i + 1 < |s| && IsCjk(s[i + 1]) {
        bigrams := bigrams + {[c, s[i + 1]]};
      }
    }
    RunEnds(s, start, |s|);
    words := FinalizeWord(cur, words);
  }

  lemma NextBigram(s: string, i: nat)
    requires i < |s|
    ensures BigramsBefore(s, i + 1) ==
              BigramsBefore(s, i) + (if IsCjk(s[i]) && i + 1 < |s| && IsCjk(s[i + 1]) then {[s[i], s[i + 1]]} else {})
  {
    var pair := IsPair(s, i);
    if pair {
      assert s[i..i + 2] == [s[i], s[i + 1]];
      assert BigramsBefore(s, i + 1) == BigramsBefore(s, i) + {s[i..i + 2]};
    }
  }

  lemma AlnumIsNotCjk(s: string, i: nat)
    requires i < |s| && IsAlnum(s[i])
    ensures BigramsBefore(s, i + 1) == BigramsBefore(s, i)
  {
    NextBigram(s, i);
  }

  // ------------------------------------------------------------ the best match

  datatype Candidate = Candidate(id: string, title: string, area: Option<string>)

  function Combined(c: Candidate): string {
    if c.area.Some? then c.title + " " + c.area.value else c.title
  }

  /** What a candidate has in common with the title: words, and character pairs. */
  datatype Hits = Hits(id: string, words: nat, bigrams: nat)

  ghost function HitsOf(title: string, c: Candidate): Hits {
    Hits(c.id, |Words(title) * Words(Combined(c))|, |Bigrams(title) * Bigrams(Combined(c))|)
  }

  ghost function AllHits(title: string, cs: seq<Candidate>): (hs: seq<Hits>)
    ensures |hs| == |cs| && forall i :: 0 <= i < |cs| ==> hs[i].id == cs[i].id
  {
    seq(|cs|, i requires 0 <= i < |cs| => HitsOf(title, cs[i]))
  }

  function Score(h: Hits): nat {
    h.words + h.bigrams
  }

  predicate Clears(h: Hits) {
    h.words >= 1 || h.bigrams >= 2
  }

  /** The only candidate with the highest overlap, and an overlap worth something. */
  predicate Wins(hs: seq<Hits>, k: nat) {
    k < |hs| && (forall j :: 0 <= j < |hs| && j != k ==> Score(hs[j]) < Score(hs[k])) && Clears(hs[k])
  }

  ghost predicate Decides(hs: seq<Hits>, r: Option<string>) {
    && (r.Some? <==> exists k: nat :: Wins(hs, k))
    && (forall k: nat :: Wins(hs, k) ==> r == Some(hs[k].id))
  }

  /** The scan's summary of the candidates before `n`. */
  ghost predicate BestOf(hs: seq<Hits>, n: nat, total: nat, best: Option<nat>, tie: bool)
    requires n <= |hs|
  {
    && (forall j :: 0 <= j < n ==> Score(hs[j]) <= total)
    && (best.None? ==> total == 0 && !tie)
    && (best.Some? ==> best.value < n && total > 0 && Score(hs[best.value]) == total)
    && (tie ==> exists j :: 0 <= j < n && best.Some? && j != best.value && Score(hs[j]) == total)
    && (!tie && best.Some? ==> forall j :: 0 <= j < n && j != best.value ==> Score(hs[j]) < total)
  }

  lemma NothingWins(title: string, cs: seq<Candidate>)
    requires Words(title) == {} && Bigrams(title) == {}
    ensures Decides(AllHits(title, cs), None)
  {
    hide Words, Bigrams;
    forall k: nat ensures !Wins(AllHits(title, cs), k) { }
  }

  /** The summary, with the overlap of the best one so far at hand. */
  ghost predicate Running(hs: seq<Hits>, n: nat, words: nat, bigrams: nat, total: nat, best: Option<nat>, tie: bool)
    requires n <= |hs|
  {
    && BestOf(hs, n, total, best, tie)
    && (best.Some? ==> best.value < n && words == hs[best.value].words && bigrams == hs[best.value].bigrams)
  }

  /** One pass with a running best and a tie flag finds the unique maximum. */
  method R2Reflex(title: string, candidates: seq<Candidate>) returns (r: Option<string>)
    ensures Decides(AllHits(title, candidates), r)
  {
    hide *;
    var taskWords, taskBigrams := Tokenize(title);
    if taskWords == {} && taskBigrams == {} {
      NothingWins(title, candidates);
      return None;
    }
    r := BestMatch(title, candidates, taskWords, taskBigrams);
  }

  method BestMatch(title: string, candidates: seq<Candidate>, taskWords: set<string>, taskBigrams: set<string>)
    returns (r: Option<string>)
    requires taskWords == Words(title) && taskBigrams == Bigrams(title)
    ensures Decides(AllHits(title, candidates), r)
  {
    hide *;
    ghost var hs := AllHits(title, candidates);
    var bestTotal: nat, bestWords: nat, bestBigrams: nat := 0, 0, 0;
    var best: Option<nat> := None;
    var tie := false;
    NothingYet(hs);
    for i := 0 to |candidates|
      invariant Running(hs, i, bestWords, bestBigrams, bestTotal, best, tie)
    {
      var words, bigrams := Tokenize(Combined(candidates[i]));
      var wordHits, bigramHits := |taskWords * words|, |taskBigrams * bigrams|;
      var total := wordHits + bigramHits;
      HitsAt(title, candidates, i);
      BestNext(hs, i, bestWords, bestBigrams, bestTotal, best, tie);
      if total == 0 {
        continue;
      }
      if total > bestTotal {
        bestTotal, best, tie := total, Some(i), false;
        bestWords, bestBigrams := wordHits, bigramHits;
      } else if total == bestTotal {
        if best.Some? {
          tie := true;
        }
      }
    }
    BestDecides(hs, bestWords, bestBigrams, bestTotal, best, tie);
    if tie || best.None? {
      return None;
    }
    if bestWords >= 1 || bestBigrams >= 2 {
      return Some(candidates[best.value].id);
    }
    return None;
  }

  lemma HitsAt(title: string, cs: seq<Candidate>, i: nat)
    requires i < |cs|
    ensures AllHits(title, cs)[i].words == |Words(title) * Words(Combined(cs[i]))|
    ensures AllHits(title, cs)[i].bigrams == |Bigrams(title) * Bigrams(Combined(cs[i]))|
  {
  }

  lemma NothingYet(hs: seq<Hits>)
    ensures Running(hs, 0, 0, 0, 0, None, false)
  {
  }

  /** How the summary moves on by one candidate. */
  lemma BestNext(hs: seq<Hits>, i: nat, words: nat, bigrams: nat, total: nat, best: Option<nat>, tie: bool)
    requires i < |hs| && Running(hs, i, words, bigrams, total, best, tie)
    ensures var score := hs[i].words + hs[i].bigrams;
            && (score > total ==> Running(hs, i + 1, hs[i].words, hs[i].bigrams, score, Some(i), false))
            && (score == total && score > 0 ==> best.Some? && Running(hs, i + 1, words, bigrams, total, best, true))
            && (score < total || score == 0 ==> Running(hs, i + 1, words, bigrams, total, best, tie))
  {
    if tie {
      var j :| 0 <= j < i && best.Some? && j != best.value && Score(hs[j]) == total;
      assert 0 <= j < i + 1;
    }
  }

  /** What the summary of all candidates says about the unique maximum. */
  lemma BestDecides(hs: seq<Hits>, words: nat, bigrams: nat, total: nat, best: Option<nat>, tie: bool)
    requires Running(hs, |hs|, words, bigrams, total, best, tie)
    ensures tie || best.None? ==> Decides(hs, None)
    ensures !tie && best.Some? ==>
              best.value < |hs| && Decides(hs, if words >= 1 || bigrams >= 2 then Some(hs[best.value].id) else None)
  {
    if !tie && best.Some? {
      assert Clears(hs[best.value]) ==> Wins(hs, best.value);
    }
    forall k: nat | Wins(hs, k) ensures !tie && best == Some(k) {
      assert Score(hs[k]) > 0;
    }
  }

  /** The decision does not depend on the order of the candidates. */
  lemma OrderDoesNotMatter(title: string, cs: seq<Candidate>, ds: seq<Candidate>, r: Option<string>, q: Option<string>)
    requires multiset(cs) == multiset(ds)
    ensures Decides(AllHits(title, cs), r) && Decides(AllHits(title, ds), q) ==> r == q
  {
    hide HitsOf, Wins;
    var a, b := AllHits(title, cs), AllHits(title, ds);
    if Decides(a, r) && Decides(b, q) {
      if k: nat :| Wins(a, k) {
        var j := WinsAnywhere(title, cs, ds, k);
      }
      if k: nat :| Wins(b, k) {
        var j := WinsAnywhere(title, ds, cs, k);
      }
    }
  }

  lemma WinsAnywhere(title: string, cs: seq<Candidate>, ds: seq<Candidate>, k: nat) returns (j: nat)
    requires multiset(cs) == multiset(ds) && Wins(AllHits(title, cs), k)
    ensures k < |cs| && j < |ds| && ds[j] == cs[k] && Wins(AllHits(title, ds), j)
  {
    hide HitsOf, Score, Clears;
    var a, b := AllHits(title, cs), AllHits(title, ds);
    assert cs[k] in multiset(ds);
    j :| 0 <= j < |ds| && ds[j] == cs[k];
    forall i | 0 <= i < |cs| && i != k ensures cs[i] != cs[k] {
      assert Score(a[i]) < Score(a[k]);
    }
    CountIsOne(cs, k);
    forall i | 0 <= i < |ds| && i != j ensures Score(b[i]) < Score(b[j]) {
      assert ds[i] in multiset(cs);
      var m :| 0 <= m < |cs| && cs[m] == ds[i];
      OneOnly(ds, i, j);
      assert m != k;
      assert Score(a[m]) < Score(a[k]);
    }
  }

  /** What occurs once does not stand in two places. */
  lemma OneOnly(ds: seq<Candidate>, i: nat, j: nat)
    requires i < |ds| && j < |ds| && i != j && multiset(ds)[ds[j]] == 1
    ensures ds[i] != ds[j]
  {
    if ds[i] == ds[j] {
      TwicePresent(ds, if i < j then i else j, if i < j then j else i);
    }
  }

  /** A winner occurs once. */
  lemma {:induction false} CountIsOne(cs: seq<Candidate>, k: nat)
    requires k < |cs| && forall j :: 0 <= j < |cs| && j != k ==> cs[j] != cs[k]
    ensures multiset(cs)[cs[k]] == 1
  {
    var c := cs[k];
    assert cs == cs[..k] + [c] + cs[k + 1..];
    assert c !in cs[..k] && c !in cs[k + 1..];
  }

  lemma TwicePresent(cs: seq<Candidate>, i: nat, j: nat)
    requires i < j < |cs| && cs[i] == cs[j]
    ensures multiset(cs)[cs[i]] >= 2
  {
    assert cs == cs[..i] + [cs[i]] + cs[i + 1..j] + [cs[j]] + cs[j + 1..];
  }

  /** History decides exactly if there is some and all of it agrees. */
  method R1Reflex(history: seq<string>) returns (r: Option<string>)
    ensures r.Some? <==> history != [] && forall i :: 0 <= i < |history| ==> history[i] == history[0]
    ensures r.Some? ==> r.value in history
  {
    if history == [] {
      return None;
    }
    for i := 1 to |history|
      invariant forall j :: 0 <= j < i ==> history[j] == history[0]
    {
      if history[i] != history[0] {
        return None;
      }
    }
    return Some(history[0]);
  }

  // --------------------------------------------------------- a model's choice

  datatype Confidence = Low | Medium | High

  function ParseConfidence(s: string): Option<Confidence> {
    if s == "low" then Some(Low) else if s == "medium" then Some(Medium) else if s == "high" then Some(High) else None
  }

  const MAX_REASON_CHARS: nat := 200
  const BAD_OUTPUT: string := "bad_output"
  const NO_CHOICE: string := "none"

  datatype Decision = Decision(direction: Option<string>, lowConfidence: bool)

  /** The reply's three fields, if it was well-formed JSON with no other. */
  datatype ModelChoice = ModelChoice(choice: string, confidence: string, reason: string)

  function KeyOf(i: nat): string {
    "d" + Print(i + 1)
  }

  method FindKey(choice: string, n: nat) returns (r: Option<nat>)
    ensures r.Some? ==> r.value < n && choice == KeyOf(r.value)
    ensures r.None? ==> forall i :: 0 <= i < n ==> choice != KeyOf(i)
  {
    for i := 0 to n
      invariant forall j :: 0 <= j < i ==> choice != KeyOf(j)
    {
      if choice == KeyOf(i) {
        return Some(i);
      }
    }
    return None;
  }

  lemma KeysApart(i: nat, j: nat)
    requires KeyOf(i) == KeyOf(j)
    ensures i == j
  {
    hide Print, Read;
    assert KeyOf(i)[1..] == Print(i + 1) && KeyOf(j)[1..] == Print(j + 1);
    ReadPrint(i + 1);
    ReadPrint(j + 1);
  }

  /** A real key with at least medium confidence, and nothing else, names a direction. */
  method ParseClassifyReply(reply: Option<ModelChoice>, directions: seq<string>) returns (r: Result<Decision, string>)
    ensures r.Ok? <==>
              && reply.Some? && reply.value.confidence in {"low", "medium", "high"} && |reply.value.reason| <= 200
              && (reply.value.choice == "none" || exists i :: 0 <= i < |directions| && reply.value.choice == KeyOf(i))
    ensures r.Err? ==> r.error == "bad_output"
    ensures r.Ok? ==> (r.value.lowConfidence <==> reply.value.confidence == "low")
    ensures r.Ok? && reply.value.choice == "none" ==> r.value.direction == None
    ensures r.Ok? ==>
              forall i :: 0 <= i < |directions| && reply.value.choice == KeyOf(i) ==>
                r.value.direction == if reply.value.confidence == "low" then None else Some(directions[i])
  {
    hide Print;
    if reply.None? {
      return Err(BAD_OUTPUT);
    }
    var m := reply.value;
    forall i, j | KeyOf(i) == KeyOf(j) ensures i == j { KeysApart(i, j); }
    var level := ParseConfidence(m.confidence);
    if level.None? || |m.reason| > MAX_REASON_CHARS {
      return Err(BAD_OUTPUT);
    }
    var found := FindKey(m.choice, |directions|);
    if m.choice != NO_CHOICE && found.None? {
      return Err(BAD_OUTPUT);
    }
    if m.choice == NO_CHOICE {
      NoneIsNoKey();
      return Ok(Decision(None, level.value == Low));
    }
    if level.value == Low {
      return Ok(Decision(None, true));
    }
    return Ok(Decision(Some(directions[found.value]), false));
  }

  lemma NoneIsNoKey()
    ensures forall i: nat :: NO_CHOICE != KeyOf(i)
  {
    hide Print;
    forall i: nat ensures NO_CHOICE != KeyOf(i) {
      assert KeyOf(i)[0] == 'd' && NO_CHOICE[0] == 'n';
    }
  }
}
