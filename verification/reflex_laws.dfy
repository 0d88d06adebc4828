/** What the rules read out of a title, piece by piece, and whom they choose. */
module ReflexLaws {
  import opened Prelude
  import opened KernelKey
  import opened Reflexes

  // ---------------------------------------------------------------- the words

  /** A stretch of letters and digits is one word, in lower case, if it is at least
      three long and holds a letter; and none at all if not. */
  lemma OneStretch(w: string)
    requires forall i :: 0 <= i < |w| ==> 'a' <= w[i] <= 'z' || 'A' <= w[i] <= 'Z' || '0' <= w[i] <= '9'
    ensures |w| >= 3 && (exists i :: 0 <= i < |w| && ('a' <= w[i] <= 'z' || 'A' <= w[i] <= 'Z')) ==> Words(w) == {AsciiLower(w)}
    ensures |w| < 3 || (forall i :: 0 <= i < |w| ==> '0' <= w[i] <= '9') ==> Words(w) == {}
  {
    forall a, b | 0 <= a <= b <= |w| && IsRun(w, a, b) ensures (a == 0 || a == |w|) && b == |w| {
      assert a > 0 ==> IsAlnum(w[a - 1]);
      assert b < |w| ==> IsAlnum(w[b]);
    }
    assert w[0..|w|] == w && w[|w|..|w|] == "";
    assert IsRun(w, 0, |w|);
    if IsWord(w) {
      assert AsciiLower(w[0..|w|]) in Words(w);
    } else {
      assert HasLetter(w) <==> exists i :: 0 <= i < |w| && ('a' <= w[i] <= 'z' || 'A' <= w[i] <= 'Z');
    }
  }

  /** A run of the whole text, on either side of a character that is neither letter
      nor digit. */
  lemma RunsAround(a: string, c: char, b: string, i: nat, j: nat)
    requires !IsAlnum(c) && i < j <= |a| + 1 + |b|
    ensures var s := a + ([c] + b);
            IsRun(s, i, j) <==> (j <= |a| && IsRun(a, i, j)) || (i > |a| && IsRun(b, i - |a| - 1, j - |a| - 1))
    ensures var s := a + ([c] + b);
            && (j <= |a| ==> s[i..j] == a[i..j]) && (i > |a| ==> s[i..j] == b[i - |a| - 1..j - |a| - 1])
  {
    hide IsAlnum;
    var s := a + ([c] + b);
    if j <= |a| {
      assert s[i..j] == a[i..j];
      assert j < |a| ==> s[j] == a[j];
      assert j == |a| ==> s[j] == c;
    } else if i > |a| {
      var k, l := i - |a| - 1, j - |a| - 1;
      assert s[i..j] == b[k..l];
      assert k > 0 ==> s[i - 1] == b[k - 1];
      assert k == 0 ==> s[i - 1] == c;
      assert l < |b| ==> s[j] == b[l];
    } else {
      var at := |a| - i;
      assert s[|a|] == c && i + at == |a| && 0 <= at < j - i;
      assert s[i..j][at] == s[|a|];
    }
  }

  /** What stands between two characters that are neither letters nor digits is read
      on its own: a separator adds nothing and joins nothing. */
  lemma WordsApart(a: string, c: char, b: string)
    requires !IsAlnum(c)
    ensures Words(a + ([c] + b)) == Words(a) + Words(b)
  {
    var s := a + ([c] + b);
    forall w | w in Words(s) ensures w in Words(a) + Words(b) {
      var i, j := RunOfWord(s, w);
      RunsAround(a, c, b, i, j);
      if j <= |a| {
        WordOfRun(a, i, j);
      } else {
        WordOfRun(b, i - |a| - 1, j - |a| - 1);
      }
    }
    forall w | w in Words(a) ensures w in Words(s) {
      var i, j := RunOfWord(a, w);
      RunsAround(a, c, b, i, j);
      WordOfRun(s, i, j);
    }
    forall w | w in Words(b) ensures w in Words(s) {
      var i, j := RunOfWord(b, w);
      var k, l := i + |a| + 1, j + |a| + 1;
      RunsAround(a, c, b, k, l);
      WordOfRun(s, k, l);
    }
  }

  lemma RunOfWord(s: string, w: string) returns (a: nat, b: nat)
    requires w in Words(s)
    ensures a < b <= |s| && IsRun(s, a, b) && IsWord(s[a..b]) && w == AsciiLower(s[a..b])
  {
    hide IsRun, IsAlnum, HasLetter;
    a, b :| 0 <= a <= b <= |s| && IsRun(s, a, b) && IsWord(s[a..b]) && w == AsciiLower(s[a..b]);
  }

  lemma WordOfRun(s: string, a: nat, b: nat)
    requires a <= b <= |s| && IsRun(s, a, b) && IsWord(s[a..b])
    ensures AsciiLower(s[a..b]) in Words(s)
  {
    hide IsRun, IsAlnum, HasLetter;
  }

  /** The characters that make pairs: Chinese, Japanese and Korean script. */
  lemma CjkAre(c: char)
    ensures IsCjk(c) <==>
              || '\U{3040}' <= c <= '\U{30FF}' || '\U{3400}' <= c <= '\U{4DBF}' || '\U{4E00}' <= c <= '\U{9FFF}'
              || '\U{AC00}' <= c <= '\U{D7A3}' || '\U{F900}' <= c <= '\U{FAFF}' || '\U{20000}' <= c <= '\U{2FA1F}'
  {
  }

  /** One character in front adds at most one pair: itself and its neighbour. */
  lemma PairsCons(c: char, s: string)
    ensures s == "" ==> Bigrams([c] + s) == {}
    ensures s != "" ==> Bigrams([c] + s) == Bigrams(s) + (if IsCjk(c) && IsCjk(s[0]) then {[c, s[0]]} else {})
  {
    hide IsCjk;
    var all := [c] + s;
    forall p | p in Bigrams(all) && s != "" ensures p in Bigrams(s) || (IsCjk(c) && IsCjk(s[0]) && p == [c, s[0]]) {
      var i :| 0 <= i < |all| && IsPair(all, i) && p == all[i..i + 2];
      if i == 0 {
        assert all[0..2] == [c, s[0]];
      } else {
        assert IsPair(s, i - 1) && s[i - 1..i + 1] == all[i..i + 2];
      }
    }
    forall p | p in Bigrams(s) ensures p in Bigrams(all) {
      var i :| 0 <= i < |s| && IsPair(s, i) && p == s[i..i + 2];
      assert IsPair(all, i + 1) && all[i + 1..i + 3] == s[i..i + 2];
    }
    if s != "" && IsCjk(c) && IsCjk(s[0]) {
      assert IsPair(all, 0) && all[0..2] == [c, s[0]];
    }
  }

  lemma {:induction false} PairsApart(a: string, c: char, b: string)
    requires !IsCjk(c)
    ensures Bigrams(a + ([c] + b)) == Bigrams(a) + Bigrams(b)
  {
    hide Bigrams, IsCjk;
    var tail := [c] + b;
    PairsCons(c, b);
    NoPairs();
    if a == "" {
      assert a + tail == tail;
    } else {
      var rest := a[1..] + tail;
      PairsApart(a[1..], c, b);
      assert a + tail == [a[0]] + rest && a == [a[0]] + a[1..];
      PairsCons(a[0], rest);
      PairsCons(a[0], a[1..]);
      if a[1..] == "" {
        assert rest == tail;
      } else {
        assert rest[0] == a[1..][0];
      }
    }
  }

  lemma NoPairs()
    ensures Bigrams("") == {}
  {
  }

  /** A candidate is read as its own title and its area's, without anything that
      would reach across. */
  lemma CandidateReads(c: Candidate)
    ensures Words(Combined(c)) == Words(c.title) + (if c.area.Some? then Words(c.area.value) else {})
    ensures Bigrams(Combined(c)) == Bigrams(c.title) + (if c.area.Some? then Bigrams(c.area.value) else {})
  {
    if c.area.Some? {
      WordsApart(c.title, ' ', c.area.value);
      PairsApart(c.title, ' ', c.area.value);
      hide Words, Bigrams;
      assert c.title + ([' '] + c.area.value) == Combined(c);
    }
  }

  // --------------------------------------------------------------- the choice

  /** What a candidate shares with a title. */
  ghost function SharedWords(title: string, c: Candidate): set<string> {
    Words(title) * (Words(c.title) + if c.area.Some? then Words(c.area.value) else {})
  }

  ghost function SharedPairs(title: string, c: Candidate): set<string> {
    Bigrams(title) * (Bigrams(c.title) + if c.area.Some? then Bigrams(c.area.value) else {})
  }

  ghost function Shared(title: string, c: Candidate): nat {
    |SharedWords(title, c)| + |SharedPairs(title, c)|
  }

  /** The candidate at `k` shares more with the title than any other, and at least a
      word or two pairs. */
  ghost predicate StandsOut(title: string, cs: seq<Candidate>, k: nat) {
    && k < |cs| && (forall j :: 0 <= j < |cs| && j != k ==> Shared(title, cs[j]) < Shared(title, cs[k]))
    && (SharedWords(title, cs[k]) != {} || |SharedPairs(title, cs[k])| >= 2)
  }

  lemma HitsAre(title: string, c: Candidate)
    ensures HitsOf(title, c) == Hits(c.id, |SharedWords(title, c)|, |SharedPairs(title, c)|)
    ensures Score(HitsOf(title, c)) == Shared(title, c)
    ensures Clears(HitsOf(title, c)) <==> SharedWords(title, c) != {} || |SharedPairs(title, c)| >= 2
  {
    CandidateReads(c);
    hide Words, Bigrams, Combined;
    NonEmptyIsOne(SharedWords(title, c));
  }

  lemma NonEmptyIsOne(ws: set<string>)
    ensures |ws| >= 1 <==> ws != {}
  {
  }

  lemma HitAt(title: string, cs: seq<Candidate>, j: nat)
    requires j < |cs|
    ensures AllHits(title, cs)[j] == HitsOf(title, cs[j])
  {
    hide HitsOf;
  }

  lemma WinsIs(title: string, cs: seq<Candidate>, k: nat)
    ensures Wins(AllHits(title, cs), k) <==> StandsOut(title, cs, k)
  {
    var hs := AllHits(title, cs);
    forall j | 0 <= j < |cs|
      ensures Score(hs[j]) == Shared(title, cs[j])
      ensures Clears(hs[j]) <==> SharedWords(title, cs[j]) != {} || |SharedPairs(title, cs[j])| >= 2
    {
      HitAt(title, cs, j);
      HitsAre(title, cs[j]);
    }
    hide AllHits, HitsOf, Score, Clears, Shared, SharedWords, SharedPairs;
  }

  /** The rule's choice is the candidate that stands out, and none if none does. */
  lemma ChoosesExactly(title: string, cs: seq<Candidate>, r: Option<string>)
    requires Decides(AllHits(title, cs), r)
    ensures r.Some? <==> exists k: nat :: StandsOut(title, cs, k)
    ensures forall k: nat :: StandsOut(title, cs, k) ==> r == Some(cs[k].id)
  {
    forall k: nat ensures Wins(AllHits(title, cs), k) <==> StandsOut(title, cs, k) {
      WinsIs(title, cs, k);
    }
    hide AllHits, Wins, StandsOut;
  }
}
