/** What a scheduling run offers, decides and reports, in the words of its inputs. */
module ProposeLaws {
  import opened Prelude
  import opened Cron
  import opened Decimal
  import opened Text
  import opened Transitions
  import opened Gate
  import opened Ladder
  import opened Ordering
  import opened ProposeReply
  import opened Proposing

  // --------------------------------------------------------------- the order

  /** The share a task counts with: that of the first allocation naming its
      direction, and none if there is no such allocation. */
  lemma {:induction false} ShareIs(d: Option<Id>, alloc: seq<Alloc>, k: nat)
    ensures d.None? || (forall i :: 0 <= i < |alloc| ==> alloc[i].direction != d.value) ==> PctOf(d, alloc) == 0
    ensures d.Some? && k < |alloc| && alloc[k].direction == d.value && (forall i :: 0 <= i < k ==> alloc[i].direction != d.value) ==>
              PctOf(d, alloc) == alloc[k].pct
  {
    if d.Some? && alloc != [] && alloc[0].direction != d.value {
      var rest := alloc[1..];
      assert forall i :: 0 <= i < |rest| ==> rest[i] == alloc[i + 1];
      ShareIs(d, rest, if k > 0 then k - 1 else 0);
    }
  }

  /** In the rule's order a started task never stands behind one that is not, nor a
      planned one behind the backlog; of one status the larger share goes first,
      and of one share the older task. */
  lemma OrderSays(ts: seq<Task>, out: seq<Task>, alloc: seq<Alloc>, i: nat, j: nat)
    requires IsStableSort(ts, out, alloc) && i < j < |out|
    requires forall t :: t in out ==> t.status in {Backlog, Planned, InProgress}
    ensures out[j].status == InProgress ==> out[i].status == InProgress
    ensures out[j].status == Planned ==> out[i].status != Backlog
    ensures out[i].status == out[j].status ==> PctOf(out[i].direction, alloc) >= PctOf(out[j].direction, alloc)
    ensures out[i].status == out[j].status && PctOf(out[i].direction, alloc) == PctOf(out[j].direction, alloc) ==>
              out[i].createdAt <= out[j].createdAt
  {
    hide PctOf, Only;
    assert out[i] in out && out[j] in out;
  }

  // -------------------------------------------------------------- candidates

  /** `x` stands somewhere before `y`. */
  ghost predicate Before<T>(whole: seq<T>, x: T, y: T) {
    exists a, b :: 0 <= a < b < |whole| && whole[a] == x && whole[b] == y
  }

  /** Everything in the part stands in the whole, and in the same order. */
  ghost predicate KeepsOrder<T>(part: seq<T>, whole: seq<T>) {
    (forall x :: x in part ==> x in whole) && forall i, j :: 0 <= i < j < |part| ==> Before(whole, part[i], part[j])
  }

  lemma BeforeCons<T>(rest: seq<T>, h: T, x: T, y: T)
    ensures Before(rest, x, y) ==> Before([h] + rest, x, y)
    ensures y in rest ==> Before([h] + rest, h, y)
  {
    var whole := [h] + rest;
    if Before(rest, x, y) {
      var a, b :| 0 <= a < b < |rest| && rest[a] == x && rest[b] == y;
      assert whole[a + 1] == x && whole[b + 1] == y;
    }
    if y in rest {
      var b :| 0 <= b < |rest| && rest[b] == y;
      assert whole[0] == h && whole[b + 1] == y;
    }
  }

  lemma OrderKept<T>(part: seq<T>, rest: seq<T>, x: T)
    requires KeepsOrder(part, rest)
    ensures KeepsOrder(part, [x] + rest) && KeepsOrder([x] + part, [x] + rest)
  {
    hide Before;
    var whole, more := [x] + rest, [x] + part;
    forall i, j | 0 <= i < j < |part| ensures Before(whole, part[i], part[j]) {
      BeforeCons(rest, x, part[i], part[j]);
    }
    forall i, j | 0 <= i < j < |more| ensures Before(whole, more[i], more[j]) {
      BeforeCons(rest, x, x, more[j]);
      if i > 0 {
        assert more[i] == part[i - 1] && more[j] == part[j - 1];
      } else {
        assert part[j - 1] in rest;
      }
    }
  }

  /** The tasks to be ordered are the week's open ones, as the week lists them. */
  lemma {:induction false} OpenInOrder(ts: seq<Task>)
    ensures KeepsOrder(OpenTasks(ts), ts)
    ensures forall t :: t in OpenTasks(ts) <==> t in ts && t.status in {Backlog, Planned, InProgress}
  {
    if ts != [] {
      OpenInOrder(ts[1..]);
      OrderKept(OpenTasks(ts[1..]), ts[1..], ts[0]);
      hide Before, KeepsOrder;
      assert [ts[0]] + ts[1..] == ts && [] + OpenTasks(ts[1..]) == OpenTasks(ts[1..]);
    }
  }

  /** Exactly the planned and started tasks of the previous week are carried, in its order. */
  lemma CarriedInOrder(prev: seq<Task>)
    ensures KeepsOrder(CarryReflex(prev), TaskIds(prev))
    ensures forall id :: id in CarryReflex(prev) <==> exists t :: t in prev && t.id == id && t.status in {Planned, InProgress}
  {
    CarriedKeeps(prev);
    hide CarryReflex, KeepsOrder, TaskIds;
    assert forall s :: Carryable(s) <==> s in {Planned, InProgress};
  }

  lemma {:induction false} CarriedKeeps(prev: seq<Task>)
    ensures KeepsOrder(CarryReflex(prev), TaskIds(prev))
  {
    if prev != [] {
      CarriedKeeps(prev[1..]);
      OrderKept(CarryReflex(prev[1..]), TaskIds(prev[1..]), prev[0].id);
      FirstCarried(prev);
      hide *;
    } else {
      assert CarryReflex(prev) == [] && TaskIds(prev) == [];
    }
  }

  lemma FirstCarried(prev: seq<Task>)
    requires prev != []
    ensures TaskIds(prev) == [prev[0].id] + TaskIds(prev[1..])
    ensures CarryReflex(prev) == CarryReflex(prev[1..]) || CarryReflex(prev) == [prev[0].id] + CarryReflex(prev[1..])
  {
    assert [] + CarryReflex(prev[1..]) == CarryReflex(prev[1..]);
  }

  /** What pending proposals already carry is not offered again, and the rest is. */
  lemma {:induction false} WithoutInOrder(ids: seq<Id>, excluded: set<Id>)
    ensures KeepsOrder(Without(ids, excluded), ids)
    ensures forall id :: id in Without(ids, excluded) <==> id in ids && id !in excluded
  {
    if ids != [] {
      WithoutInOrder(ids[1..], excluded);
      OrderKept(Without(ids[1..], excluded), ids[1..], ids[0]);
      hide Before, KeepsOrder;
      assert [ids[0]] + ids[1..] == ids && [] + Without(ids[1..], excluded) == Without(ids[1..], excluded);
    }
  }

  /** A direction a pending proposal serves is not offered for new tasks, every other
      gap is, and each keeps the key it had. */
  lemma {:induction false} OfferIsUncovered(gaps: seq<Keyed>, covered: set<Id>)
    ensures forall c :: c in Uncovered(gaps, covered) <==> c in gaps && c.id !in covered
    ensures KeepsOrder(Uncovered(gaps, covered), gaps)
  {
    if gaps != [] {
      OfferIsUncovered(gaps[1..], covered);
      OrderKept(Uncovered(gaps[1..], covered), gaps[1..], gaps[0]);
      hide Before, KeepsOrder;
      assert [gaps[0]] + gaps[1..] == gaps && [] + Uncovered(gaps[1..], covered) == Uncovered(gaps[1..], covered);
    }
  }

  /** The candidates left out of an order follow in the order they already had. */
  lemma {:induction false} LeftOutInOrder(keys: seq<string>, cs: seq<Keyed>)
    ensures KeepsOrder(LeftOut(keys, cs), Ids(cs))
  {
    if cs != [] {
      LeftOutInOrder(keys, cs[1..]);
      OrderKept(LeftOut(keys, cs[1..]), Ids(cs[1..]), cs[0].id);
      FirstLeftOut(keys, cs);
      hide *;
    } else {
      assert LeftOut(keys, cs) == [] && Ids(cs) == [];
    }
  }

  lemma FirstLeftOut(keys: seq<string>, cs: seq<Keyed>)
    requires cs != []
    ensures Ids(cs) == [cs[0].id] + Ids(cs[1..])
    ensures LeftOut(keys, cs) == LeftOut(keys, cs[1..]) || LeftOut(keys, cs) == [cs[0].id] + LeftOut(keys, cs[1..])
  {
    assert [] + LeftOut(keys, cs[1..]) == LeftOut(keys, cs[1..]);
  }

  lemma {:induction false} LeftOutAre(keys: seq<string>, cs: seq<Keyed>, id: Id)
    ensures id in LeftOut(keys, cs) <==> exists c :: c in cs && c.id == id && c.key !in keys
  {
    if cs != [] {
      LeftOutAre(keys, cs[1..], id);
    }
  }

  lemma KeepsTwice<T>(part: seq<T>, mid: seq<T>, whole: seq<T>)
    requires KeepsOrder(part, mid) && KeepsOrder(mid, whole)
    ensures KeepsOrder(part, whole)
  {
    forall i, j | 0 <= i < j < |part| ensures Before(whole, part[i], part[j]) {
      assert Before(mid, part[i], part[j]);
      var a, b :| 0 <= a < b < |mid| && mid[a] == part[i] && mid[b] == part[j];
      assert Before(whole, mid[a], mid[b]);
    }
  }

  /** On offer to be carried over are last week's planned and started tasks, in their
      order, but for those a pending proposal already carries; and the week's own
      order is that of its tasks that are not closed. */
  lemma CandidatesSay(input: Input, dedup: Dedup, id: Id)
    ensures id in CarryableIds(input, dedup) <==>
              id !in dedup.excludedCarry && exists t :: t in input.prevTasks && t.id == id && t.status in {Planned, InProgress}
    ensures KeepsOrder(CarryableIds(input, dedup), TaskIds(input.prevTasks))
    ensures id in CurrentIds(input) <==>
              exists t :: t in input.weekTasks && t.id == id && t.status in {Backlog, Planned, InProgress}
  {
    CarriedInOrder(input.prevTasks);
    WithoutInOrder(CarryReflex(input.prevTasks), dedup.excludedCarry);
    KeepsTwice(CarryableIds(input, dedup), CarryReflex(input.prevTasks), TaskIds(input.prevTasks));
    OpenInOrder(input.weekTasks);
    IdsAre(OpenTasks(input.weekTasks), id);
    hide CarryReflex, Without, OpenTasks, KeepsOrder, TaskIds;
  }

  lemma IdsAre(ts: seq<Task>, id: Id)
    ensures id in TaskIds(ts) <==> exists t :: t in ts && t.id == id
  {
    if t :| t in ts && t.id == id {
      var k :| 0 <= k < |ts| && ts[k] == t;
      assert TaskIds(ts)[k] == id;
    }
    if id in TaskIds(ts) {
      var k :| 0 <= k < |ts| && TaskIds(ts)[k] == id;
      assert ts[k] in ts;
    }
  }

  /** A new task is offered exactly for the directions with a share of the week, still
      open, other than the parking one, that have no task this week and no pending
      proposal to serve them; each once. */
  lemma OfferSays(g: seq<Keyed>, input: Input, dedup: Dedup, d: Id)
    requires IsOffer(g, input, dedup)
    ensures (exists c: Keyed :: c in g && c.id == d) <==>
              && d != "sin90-triage" && d !in dedup.excludedCreate
              && (exists k :: 0 <= k < |input.alloc| && input.alloc[k].direction == d && input.alloc[k].pct > 0)
              && (forall k :: 0 <= k < |input.weekTasks| ==> input.weekTasks[k].direction != Some(d))
              && d in input.directions && input.directions[d] in {DirDraft, DirActive, DirPaused}
  {
    var gaps :| AreGaps(gaps, input.alloc, input.weekTasks, input.directions) && g == Uncovered(gaps, dedup.excludedCreate);
    OfferIsUncovered(gaps, dedup.excludedCreate);
    IdsHold(gaps, d);
    GapIs(d, input.alloc, input.weekTasks, input.directions);
    assert d in Ids(gaps) <==> IsGap(d, input.alloc, input.weekTasks, input.directions);
    hide *;
  }

  lemma GapIs(d: Id, alloc: seq<Alloc>, week: seq<Task>, directions: map<Id, DirectionStatus>)
    ensures IsGap(d, alloc, week, directions) <==>
              && d != "sin90-triage" && (exists k :: 0 <= k < |alloc| && alloc[k].direction == d && alloc[k].pct > 0)
              && (forall k :: 0 <= k < |week| ==> week[k].direction != Some(d))
              && d in directions && directions[d] in {DirDraft, DirActive, DirPaused}
  {
  }

  lemma IdsHold(gaps: seq<Keyed>, d: Id)
    ensures d in Ids(gaps) <==> exists c: Keyed :: c in gaps && c.id == d
  {
    if d in Ids(gaps) {
      var k :| 0 <= k < |gaps| && Ids(gaps)[k] == d;
      assert gaps[k] in gaps;
    }
    if c: Keyed :| c in gaps && c.id == d {
      var k :| 0 <= k < |gaps| && gaps[k] == c;
      assert Ids(gaps)[k] == d;
    }
  }

  /** A step counts with its own turn's clock, answer and switch, the parse of its own
      reply, and the rule's decision. */
  lemma TurnSays(turns: seq<Turn>, carryable: seq<Id>, current: seq<Id>, g: seq<Keyed>, rule: ProposeDecision, k: nat)
    requires k < |turns|
    ensures var act, turn := ActsOf(turns, carryable, current, g, rule)[k], turns[k];
            && act.at == turn.at && act.answer == turn.answer && act.switchOn == turn.switchOn && act.rule == Some(rule)
            && act.parsed == ParsedReply(turn.reply, KeyedIds("p", carryable), KeyedIds("w", current), g)
  {
    hide ParsedReply, KeyedIds;
  }

  // ---------------------------------------------------------------- replies

  /** The n-th key stands for the n-th candidate, and every known key has a number. */
  lemma LookupByNumber(prefix: string, ids: seq<Id>, n: nat)
    requires n >= 1
    ensures Lookup(KeyedIds(prefix, ids), prefix + Print(n)) == if n <= |ids| then Some(ids[n - 1]) else None
  {
    hide Print, Lookup;
    var cs, key := KeyedIds(prefix, ids), prefix + Print(n);
    KeyedAreDistinct(prefix, ids);
    if n <= |ids| {
      assert cs[n - 1].key == key;
      LookupIs(cs, n - 1);
    } else if Lookup(cs, key).Some? {
      var i := LookupWhere(cs, key);
      assert key[|prefix|..] == Print(n) && cs[i].key[|prefix|..] == Print(i + 1);
      ReadPrint(n);
      ReadPrint(i + 1);
    }
  }

  /** What a usable reply decides: "p" and a number stands for that task of the
      previous week, in the place of the key. */
  lemma CarrySays(m: ModelPropose, carryable: seq<Id>, w: seq<Keyed>, g: seq<Keyed>, i: nat, n: nat)
    requires Acceptable(m, KeyedIds("p", carryable), w, g) && i < |m.carry| && n >= 1 && m.carry[i] == "p" + Print(n)
    ensures var d := Decided(m, KeyedIds("p", carryable), w, g);
            |d.carry| == |m.carry| && n <= |carryable| && d.carry[i] == carryable[n - 1]
  {
    hide Lookup, LeftOut, CleanAiText, Distinct, KeyedIds, Print, DraftOk;
    LookupByNumber("p", carryable, n);
    assert Lookup(KeyedIds("p", carryable), m.carry[i]).Some?;
  }

  /** "w" and a number stands for that task of the week, which goes to the place of the key. */
  lemma OrderKeySays(m: ModelPropose, p: seq<Keyed>, current: seq<Id>, g: seq<Keyed>, i: nat, n: nat)
    requires Acceptable(m, p, KeyedIds("w", current), g) && i < |m.order| && n >= 1 && m.order[i] == "w" + Print(n)
    ensures var d := Decided(m, p, KeyedIds("w", current), g);
            |m.order| <= |d.order| && n <= |current| && d.order[i] == current[n - 1]
  {
    hide Lookup, LeftOut, CleanAiText, Distinct, KeyedIds, Print, DraftOk;
    LookupByNumber("w", current, n);
    assert Lookup(KeyedIds("w", current), m.order[i]).Some?;
  }

  /** A new task has the cleaned title of its draft and the direction offered under
      the draft's key. */
  lemma NewTaskSays(m: ModelPropose, p: seq<Keyed>, w: seq<Keyed>, g: seq<Keyed>, i: nat)
    requires Acceptable(m, p, w, g) && i < |m.newTasks|
    ensures var d := Decided(m, p, w, g);
            && |d.newTasks| == |m.newTasks| && d.reason == m.reason
            && d.newTasks[i].title == CleanAiText(m.newTasks[i].title)
            && exists k :: 0 <= k < |g| && g[k].key == m.newTasks[i].direction && d.newTasks[i].directionId == Some(g[k].id)
  {
    hide Lookup, LeftOut, CleanAiText, Distinct;
    assert DraftOk(m.newTasks[i], g);
    var k := LookupWhere(g, m.newTasks[i].direction);
  }

  predicate Offered(key: string, cs: seq<Keyed>) {
    exists k :: 0 <= k < |cs| && cs[k].key == key
  }

  predicate OnceEach(keys: seq<string>) {
    forall i, j :: 0 <= i < j < |keys| ==> keys[i] != keys[j]
  }

  lemma KnownIs(keys: seq<string>, cs: seq<Keyed>)
    ensures AllKnown(keys, cs) <==> forall i :: 0 <= i < |keys| ==> Offered(keys[i], cs)
  {
    forall i | 0 <= i < |keys| ensures Lookup(cs, keys[i]).Some? <==> Offered(keys[i], cs) {
      OfferedIs(keys[i], cs);
    }
    hide Lookup, Offered;
  }

  lemma OfferedIs(key: string, cs: seq<Keyed>)
    ensures Lookup(cs, key).Some? <==> Offered(key, cs)
  {
    hide Lookup;
  }

  /** A reply is usable exactly if it was well-formed, repeats no key, names nothing
      that was not offered, and keeps to its limits. */
  lemma UsableExactly(reply: Option<ModelPropose>, p: seq<Keyed>, w: seq<Keyed>, g: seq<Keyed>)
    ensures ParsedReply(reply, p, w, g).Ok? <==>
              && reply.Some? && |reply.value.reason| <= 200 && |reply.value.newTasks| <= 3
              && OnceEach(reply.value.carry) && OnceEach(reply.value.order)
              && (forall i :: 0 <= i < |reply.value.carry| ==> Offered(reply.value.carry[i], p))
              && (forall i :: 0 <= i < |reply.value.order| ==> Offered(reply.value.order[i], w))
              && (forall i :: 0 <= i < |reply.value.newTasks| ==>
                    1 <= |CleanAiText(reply.value.newTasks[i].title)| <= 120 && Offered(reply.value.newTasks[i].direction, g))
    ensures ParsedReply(reply, p, w, g).Err? ==> ParsedReply(reply, p, w, g).error == "bad_output"
  {
    if reply.Some? {
      var m := reply.value;
      KnownIs(m.carry, p);
      KnownIs(m.order, w);
      assert Distinct(m.carry) <==> OnceEach(m.carry);
      assert Distinct(m.order) <==> OnceEach(m.order);
      forall i | 0 <= i < |m.newTasks|
        ensures DraftOk(m.newTasks[i], g) <==>
                  1 <= |CleanAiText(m.newTasks[i].title)| <= 120 && Offered(m.newTasks[i].direction, g)
      {
        OfferedIs(m.newTasks[i].direction, g);
        hide CleanAiText, Lookup, Offered;
      }
      hide DraftOk, Distinct, OnceEach, AllKnown, Offered, CleanAiText;
    }
  }

  // ------------------------------------------------------------ cleaned text

  lemma {:induction false} KeptPlain(s: string)
    requires forall i :: 0 <= i < |s| ==> !IsStripped(s[i])
    ensures Kept(s) == s
  {
    if s != "" {
      assert !IsStripped(s[0]);
      KeptPlain(s[1..]);
      assert !IsSpacingControl(s[0]) by { SpacingIsStripped(s[0]); }
      assert [s[0]] + s[1..] == s;
    }
  }

  lemma SpacingIsStripped(c: char)
    ensures IsSpacingControl(c) ==> IsStripped(c)
  {
  }

  /** A character that takes up no room: a control or a hidden format character that
      is no whitespace either. */
  predicate Unseen(c: char) {
    !IsWhitespace(c) && (IsControl(c) || IsHiddenFormat(c))
  }

  /** The format characters the cleaning lets through: the number signs and marks of a
      few scripts, the vowel separator, the deprecated formatting marks, the annotation
      marks, and what lies beyond the basic plane. */
  predicate LetThrough(c: char) {
    || '\U{600}' <= c <= '\U{605}' || c == '\U{6DD}' || c == '\U{70F}' || '\U{890}' <= c <= '\U{891}' || c == '\U{8E2}'
    || c == '\U{180E}' || '\U{206A}' <= c <= '\U{206F}' || '\U{FFF9}' <= c <= '\U{FFFB}'
    || c == '\U{110BD}' || c == '\U{110CD}' || '\U{13430}' <= c <= '\U{1343F}' || '\U{1BCA0}' <= c <= '\U{1BCA3}'
    || '\U{1D173}' <= c <= '\U{1D17A}' || c == '\U{E0001}' || '\U{E0020}' <= c <= '\U{E007F}'
  }

  /** The two tables of format characters agree but for those. */
  lemma HiddenExactly(c: char)
    ensures IsFormat(c) <==> IsHiddenFormat(c) || LetThrough(c)
    ensures LetThrough(c) ==> !IsHiddenFormat(c)
  {
  }

  function Seen(s: string): string {
    if s == "" then "" else (if Unseen(s[0]) then "" else [s[0]]) + Seen(s[1..])
  }

  /** What becomes of one character. */
  function KeptOf(c: char): string {
    var k := if IsSpacingControl(c) then ' ' else c;
    if IsStripped(k) then "" else [k]
  }

  lemma KeptIs(s: string)
    requires s != ""
    ensures Kept(s) == KeptOf(s[0]) + Kept(s[1..])
  {
    hide IsSpacingControl, IsStripped;
  }

  lemma KeptChar(c: char)
    ensures Unseen(c) ==> KeptOf(c) == ""
    ensures !Unseen(c) && IsWhitespace(c) ==> |KeptOf(c)| == 1 && IsWhitespace(KeptOf(c)[0])
    ensures !Unseen(c) && !IsWhitespace(c) ==> KeptOf(c) == [c]
  {
  }

  lemma {:induction false} KeptSays(cur: string, s: string)
    requires NoWhitespace(cur)
    ensures WordsFrom(cur, Kept(s)) == WordsFrom(cur, Seen(s))
    decreases |s|
  {
    if s != "" {
      var c, rest := s[0], s[1..];
      KeptIs(s);
      KeptChar(c);
      hide KeptOf, Unseen, IsWhitespace, WordsFrom, Kept, NoWhitespace;
      WordsStep(cur, KeptOf(c), Kept(rest));
      WordsStep(cur, if Unseen(c) then "" else [c], Seen(rest));
      if Unseen(c) {
        KeptSays(cur, rest);
      } else if IsWhitespace(c) {
        Nothing();
        KeptSays("", rest);
      } else {
        KeptSays(cur + [c], rest);
      }
    }
  }

  lemma Nothing()
    ensures NoWhitespace("")
  {
  }

  /** Cleaning loses nothing but what takes up no room: it keeps the words of what is
      seen, whatever whitespace stands between them. */
  lemma CleanKeepsWords(s: string)
    ensures Words(CleanAiText(s)) == Words(Seen(s))
  {
    WordsOfJoin(Words(Kept(s)));
    KeptSays("", s);
  }

  /** And cleaning is final. */
  lemma CleanIsFinal(s: string)
    ensures CleanAiText(CleanAiText(s)) == CleanAiText(s)
  {
    CleanIsTidy(s);
    KeptPlain(CleanAiText(s));
    WordsOfJoin(Words(Kept(s)));
  }

  // --------------------------------------------------------------- attempts

  /** The sub-proposals a decision leads to: carries first, one for each task in
      turn; then the new order, unless it is the old one or covered; then the new
      tasks, unless there are none or they are covered. */
  lemma AttemptsSay(d: ProposeDecision, current: seq<Id>, week: Id, dedup: Dedup)
    ensures var tries := Attempts(d, current, week, dedup);
            && (forall i, j :: 0 <= i < j < |tries| ==> tries[i].kind != tries[j].kind && tries[i].kind != Create && tries[j].kind != Carry)
            && (forall i :: 0 <= i < |tries| ==>
                  && (tries[i].kind == Carry ==>
                        |tries[i].ops| == |d.carry| && forall k :: 0 <= k < |d.carry| ==> tries[i].ops[k] == CarryOverTask(d.carry[k], week))
                  && (tries[i].kind == Reorder ==> tries[i].ops == [ReorderTasks(week, d.order)])
                  && (tries[i].kind == Create ==> tries[i].ops == [CreateTasks(week, d.newTasks)]))
            && (Tries(tries, Carry) <==> d.carry != [])
            && (Tries(tries, Reorder) <==> !dedup.skipReorder && d.order != current)
            && (Tries(tries, Create) <==> !dedup.skipCreate && d.newTasks != [])
  {
    AttemptsAre(d, current, week, dedup);
    hide Attempts;
    var a := if d.carry != [] then [Attempt(Carry, CarryOps(d, week))] else [];
    var b := if !dedup.skipReorder && d.order != current then [Attempt(Reorder, [ReorderTasks(week, d.order)])] else [];
    var c := if !dedup.skipCreate && d.newTasks != [] then [Attempt(Create, [CreateTasks(week, d.newTasks)])] else [];
    HasSlots(a, b, c);
    SlotsApart(a, b, c);
    TriesIs(a + b + c);
    hide CarryOps, Has, Tries;
  }

  lemma TriesIs(tries: seq<Attempt>)
    ensures forall kind: Kind :: Tries(tries, kind) <==> Has(tries, kind)
  {
  }

  /** At most one of each of three kinds, in this order. */
  lemma SlotsApart(a: seq<Attempt>, b: seq<Attempt>, c: seq<Attempt>)
    requires |a| <= 1 && |b| <= 1 && |c| <= 1
    requires (a != [] ==> a[0].kind == Carry) && (b != [] ==> b[0].kind == Reorder) && (c != [] ==> c[0].kind == Create)
    ensures var all := a + b + c;
            && (forall i, j :: 0 <= i < j < |all| ==> all[i].kind != all[j].kind && all[i].kind != Create && all[j].kind != Carry)
            && (forall i :: 0 <= i < |all| ==> (all[i].kind == Carry && a == [all[i]]) || (all[i].kind == Reorder && b == [all[i]])
                                               || (all[i].kind == Create && c == [all[i]]))
  {
    var all := a + b + c;
    assert forall i :: 0 <= i < |all| ==>
      all[i] == if i < |a| then a[i] else if i < |a| + |b| then b[i - |a|] else c[i - |a| - |b|];
  }

  lemma AttemptsAre(d: ProposeDecision, current: seq<Id>, week: Id, dedup: Dedup)
    ensures Attempts(d, current, week, dedup) ==
              (if d.carry != [] then [Attempt(Carry, CarryOps(d, week))] else [])
              + (if !dedup.skipReorder && d.order != current then [Attempt(Reorder, [ReorderTasks(week, d.order)])] else [])
              + (if !dedup.skipCreate && d.newTasks != [] then [Attempt(Create, [CreateTasks(week, d.newTasks)])] else [])
    ensures |CarryOps(d, week)| == |d.carry| && forall k :: 0 <= k < |d.carry| ==> CarryOps(d, week)[k] == CarryOverTask(d.carry[k], week)
  {
    assert (CarryOps(d, week) == []) == (d.carry == []);
  }

  ghost predicate Tries(tries: seq<Attempt>, kind: Kind) {
    exists i :: 0 <= i < |tries| && tries[i].kind == kind
  }

  lemma {:induction false} AcceptedSay(tries: seq<Attempt>, fate: Kind -> Fate)
    ensures KeepsOrder(Accepted(tries, fate), tries)
    ensures forall a :: a in Accepted(tries, fate) <==> a in tries && fate(a.kind) == Taken
  {
    if tries != [] {
      AcceptedSay(tries[1..], fate);
      OrderKept(Accepted(tries[1..], fate), tries[1..], tries[0]);
      assert [tries[0]] + tries[1..] == tries && [] + Accepted(tries[1..], fate) == Accepted(tries[1..], fate);
    }
  }

  lemma {:induction false} RowsSay(tries: seq<Attempt>, rec: Record, fate: Kind -> Fate, first: bool)
    ensures var rows := AttemptRows(tries, rec, fate, first);
            && |rows| == |tries|
            && forall i :: 0 <= i < |tries| ==>
                 && rows[i].engine == rec.engine && rows[i].fallbackFrom == rec.fallbackFrom && rows[i].served == rec.served
                 && (fate(tries[i].kind) == Taken ==> rows[i].ok == rec.ok && rows[i].errorKind == rec.errorKind)
                 && (fate(tries[i].kind) == Refused ==> !rows[i].ok && rows[i].errorKind == Some("rejected_by_precheck"))
                 && (fate(tries[i].kind) == StoreFailed ==> !rows[i].ok && rows[i].errorKind == Some("submit_store_error"))
                 && (if first && i == 0 then rows[i].prompt == rec.prompt && rows[i].completion == rec.completion
                     else rows[i].prompt == None && rows[i].completion == None)
  {
    if tries != [] {
      RowsSay(tries[1..], rec, fate, false);
      assert forall i :: 0 < i < |tries| ==> tries[i] == tries[1..][i - 1];
    }
  }

  /** What the run reports, records and submits for what the ladder came to. */
  lemma OutcomeSays(out: Outcome<ProposeDecision>, current: seq<Id>, week: Id, dedup: Dedup, fate: Kind -> Fate, kind: Kind)
    ensures var results := ResultsOf(out, current, week, dedup, fate);
            var slot := if kind == Carry then 0 else if kind == Reorder then 1 else 2;
            var covered := (kind == Reorder && dedup.skipReorder) || (kind == Create && dedup.skipCreate);
            && |results| == 3
            && (out.Aborted? ==> results[slot] == Cut && MoreRows(out, current, week, dedup, fate) == [])
            && (out.Deferred? ==> results[slot] == Left && MoreRows(out, current, week, dedup, fate) == [])
            && (out.Nothing? ==> results[slot] == (if covered then Covered else NothingToDo) && MoreRows(out, current, week, dedup, fate) == [])
            && (out.Produced? ==>
                  var tries := Attempts(out.value, current, week, dedup);
                  && results[slot] == (if covered then Covered
                                       else if !Tries(tries, kind) then NothingToDo
                                       else if fate(kind) == Taken then Proposed else Rejected)
                  && |MoreRows(out, current, week, dedup, fate)| == (if tries == [] then 1 else |tries|)
                  && (tries == [] ==> MoreRows(out, current, week, dedup, fate) == [out.rec]))
            && (!out.Produced? ==> MoreProposals(out, current, week, dedup, fate) == [])
            && (out.Produced? ==>
                  forall a :: a in MoreProposals(out, current, week, dedup, fate) <==>
                                a in Attempts(out.value, current, week, dedup) && fate(a.kind) == Taken)
  {
    hide Attempts, AttemptRows, Accepted;
    if out.Produced? {
      var tries := Attempts(out.value, current, week, dedup);
      RowsSay(tries, out.rec, fate, true);
      AcceptedSay(tries, fate);
      assert Tries(tries, kind) <==> Has(tries, kind);
    }
  }
}
