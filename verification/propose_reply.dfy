/** Rechecking a model's scheduling reply: its keys, its order, its new titles. */
module ProposeReply {
  import opened Prelude
  import opened Cron
  import opened Decimal
  import opened Text
  import opened Gate

  const MAX_REASON_CHARS: nat := 200
  const MAX_NEW_TASKS: nat := 3
  const MAX_NEW_TASK_TITLE_CHARS: nat := 120
  const BAD_OUTPUT: string := "bad_output"

  // ------------------------------------------------------------ cleaned text

  /** Format characters that can hide or reorder text on a screen. */
  predicate IsHiddenFormat(c: char) {
    || c == '\U{AD}' || c == '\U{61C}' || '\U{200B}' <= c <= '\U{200F}' || '\U{202A}' <= c <= '\U{202E}'
    || '\U{2060}' <= c <= '\U{2064}' || '\U{2066}' <= c <= '\U{2069}' || c == '\U{FEFF}'
  }

  predicate IsStripped(c: char) {
    IsControl(c) || c == '\U{2028}' || c == '\U{2029}' || IsHiddenFormat(c)
  }

  predicate IsSpacingControl(c: char) {
    '\U{9}' <= c <= '\U{D}' || c == '\U{85}' || c == '\U{2028}' || c == '\U{2029}'
  }

  function Kept(s: string): string {
    if s == "" then ""
    else
      var c := if IsSpacingControl(s[0]) then ' ' else s[0];
      (if IsStripped(c) then "" else [c]) + Kept(s[1..])
  }

  function CleanAiText(s: string): string {
    Join(Words(Kept(s)))
  }

  lemma {:induction false} KeptIsVisible(s: string)
    ensures forall i :: 0 <= i < |Kept(s)| ==> !IsStripped(Kept(s)[i])
  {
    if s != "" {
      KeptIsVisible(s[1..]);
    }
  }

  predicate Visible(s: string) {
    forall i :: 0 <= i < |s| ==> !IsStripped(s[i])
  }

  lemma {:induction false} WordsAreVisible(cur: string, s: string)
    requires NoWhitespace(cur) && Visible(cur) && Visible(s)
    ensures forall i :: 0 <= i < |WordsFrom(cur, s)| ==> Visible(WordsFrom(cur, s)[i])
    decreases |s|
  {
    if s != "" {
      if IsWhitespace(s[0]) {
        WordsAreVisible("", s[1..]);
      } else {
        WordsAreVisible(cur + [s[0]], s[1..]);
      }
    }
  }

  /** One line of words with single spaces between: no space at either end, no
      two in a row, and nothing else that is not visible. */
  predicate IsTidy(s: string) {
    && (forall i :: 0 <= i < |s| ==> !IsStripped(s[i]) && (IsWhitespace(s[i]) ==> s[i] == ' '))
    && (s != "" ==> s[0] != ' ' && s[|s| - 1] != ' ')
    && (forall i :: 0 <= i < |s| - 1 ==> !(s[i] == ' ' && s[i + 1] == ' '))
  }

  lemma {:induction false} JoinIsTidy(ws: seq<string>)
    requires forall i :: 0 <= i < |ws| ==> ws[i] != "" && NoWhitespace(ws[i]) && Visible(ws[i])
    ensures IsTidy(Join(ws)) && (ws != [] ==> Join(ws) != "")
  {
    if |ws| == 1 {
      WordIsTidy(ws[0]);
    } else if |ws| > 1 {
      assert forall i :: 0 <= i < |ws| - 1 ==> ws[1..][i] == ws[i + 1];
      JoinIsTidy(ws[1..]);
      WordIsTidy(ws[0]);
      TidyConcat(ws[0], Join(ws[1..]));
    }
  }

  lemma WordIsTidy(w: string)
    requires w != "" && NoWhitespace(w) && Visible(w)
    ensures IsTidy(w)
  {
  }

  lemma TidyConcat(a: string, b: string)
    requires a != "" && b != "" && IsTidy(a) && IsTidy(b)
    ensures IsTidy(a + " " + b)
  {
    var s := a + " " + b;
    assert forall i :: 0 <= i < |s| ==> s[i] == (if i < |a| then a[i] else if i == |a| then ' ' else b[i - |a| - 1]);
  }

  lemma CleanIsTidy(s: string)
    ensures IsTidy(CleanAiText(s))
  {
    KeptIsVisible(s);
    WordsAreVisible("", Kept(s));
    JoinIsTidy(Words(Kept(s)));
  }

  // ------------------------------------------------------------------- keys

  /** A candidate as the model sees it: an opaque key instead of an id. */
  datatype Keyed = Keyed(key: string, id: Id)

  function KeyedIds(prefix: string, ids: seq<Id>): seq<Keyed> {
    seq(|ids|, i requires 0 <= i < |ids| => Keyed(prefix + Print(i + 1), ids[i]))
  }

  predicate DistinctKeys(cs: seq<Keyed>) {
    forall i, j :: 0 <= i < j < |cs| ==> cs[i].key != cs[j].key
  }

  lemma KeyedAreDistinct(prefix: string, ids: seq<Id>)
    ensures DistinctKeys(KeyedIds(prefix, ids))
  {
    hide Print, Read;
    var cs := KeyedIds(prefix, ids);
    forall i, j | 0 <= i < j < |cs| ensures cs[i].key != cs[j].key {
      ReadPrint(i + 1);
      ReadPrint(j + 1);
      assert cs[i].key[|prefix|..] == Print(i + 1) && cs[j].key[|prefix|..] == Print(j + 1);
    }
  }

  function Lookup(cs: seq<Keyed>, key: string): (r: Option<Id>)
    ensures r.Some? <==> exists i :: 0 <= i < |cs| && cs[i].key == key
  {
    if cs == [] then None else if cs[0].key == key then Some(cs[0].id) else Lookup(cs[1..], key)
  }

  predicate AllKnown(keys: seq<string>, cs: seq<Keyed>) {
    forall i :: 0 <= i < |keys| ==> Lookup(cs, keys[i]).Some?
  }

  /** The ids the keys stand for, in the order the keys come. */
  function Chosen(keys: seq<string>, cs: seq<Keyed>): seq<Id>
    requires AllKnown(keys, cs)
  {
    seq(|keys|, i requires 0 <= i < |keys| => Lookup(cs, keys[i]).value)
  }

  /** The ids of the candidates left out, in their own order. */
  function LeftOut(keys: seq<string>, cs: seq<Keyed>): seq<Id> {
    if cs == [] then [] else (if cs[0].key in keys then [] else [cs[0].id]) + LeftOut(keys, cs[1..])
  }

  function Ids(cs: seq<Keyed>): seq<Id> {
    seq(|cs|, i requires 0 <= i < |cs| => cs[i].id)
  }

  // ------------------------------------------------------------------ reply

  datatype NewTaskDraft = NewTaskDraft(title: string, direction: string)

  /** The reply's fields, if it was well-formed JSON with these and no others. */
  datatype ModelPropose = ModelPropose(carry: seq<string>, order: seq<string>, newTasks: seq<NewTaskDraft>, reason: string)

  datatype ProposeDecision = ProposeDecision(carry: seq<Id>, order: seq<Id>, newTasks: seq<NewTask>, reason: string)

  predicate DraftOk(d: NewTaskDraft, g: seq<Keyed>) {
    var title := CleanAiText(d.title);
    title != "" && |title| <= MAX_NEW_TASK_TITLE_CHARS && Lookup(g, d.direction).Some?
  }

  function Drafted(ds: seq<NewTaskDraft>, g: seq<Keyed>): seq<NewTask>
    requires forall i :: 0 <= i < |ds| ==> DraftOk(ds[i], g)
  {
    seq(|ds|, i requires 0 <= i < |ds| => NewTask(CleanAiText(ds[i].title), Lookup(g, ds[i].direction)))
  }

  /** The replies that are usable, and nothing about them but this. */
  predicate Acceptable(m: ModelPropose, p: seq<Keyed>, w: seq<Keyed>, g: seq<Keyed>) {
    && |m.reason| <= MAX_REASON_CHARS
    && Distinct(m.carry) && AllKnown(m.carry, p)
    && Distinct(m.order) && AllKnown(m.order, w)
    && |m.newTasks| <= MAX_NEW_TASKS && (forall i :: 0 <= i < |m.newTasks| ==> DraftOk(m.newTasks[i], g))
  }

  function Decided(m: ModelPropose, p: seq<Keyed>, w: seq<Keyed>, g: seq<Keyed>): ProposeDecision
    requires Acceptable(m, p, w, g)
  {
    ProposeDecision(Chosen(m.carry, p), Chosen(m.order, w) + LeftOut(m.order, w), Drafted(m.newTasks, g), m.reason)
  }

  /** What the run makes of a reply. */
  function ParsedReply(reply: Option<ModelPropose>, p: seq<Keyed>, w: seq<Keyed>, g: seq<Keyed>): Result<ProposeDecision, string> {
    if reply.Some? && Acceptable(reply.value, p, w, g) then Ok(Decided(reply.value, p, w, g)) else Err(BAD_OUTPUT)
  }

  method DedupeOrBadOutput(keys: seq<string>) returns (ok: bool)
    ensures ok <==> Distinct(keys)
  {
    var seen: set<string> := {};
    for i := 0 to |keys|
      invariant seen == set j | 0 <= j < i :: keys[j]
      invariant Distinct(keys[..i])
    {
      assert keys[..i + 1] == keys[..i] + [keys[i]];
      if keys[i] in seen {
        var j :| 0 <= j < i && keys[j] == keys[i];
        return false;
      }
      seen := seen + {keys[i]};
    }
    assert keys[..|keys|] == keys;
    return true;
  }

  method Choose(keys: seq<string>, cs: seq<Keyed>) returns (r: Option<seq<Id>>)
    ensures r.Some? <==> AllKnown(keys, cs)
    ensures r.Some? ==> r.value == Chosen(keys, cs)
  {
    var ids: seq<Id> := [];
    for i := 0 to |keys|
      invariant AllKnown(keys[..i], cs) && ids == Chosen(keys[..i], cs)
    {
      var id := Lookup(cs, keys[i]);
      if id.None? {
        return None;
      }
      ids := ids + [id.value];
      assert keys[..i + 1] == keys[..i] + [keys[i]];
    }
    assert keys[..|keys|] == keys;
    return Some(ids);
  }

  method Complete(keys: seq<string>, explicit: seq<Id>, cs: seq<Keyed>) returns (order: seq<Id>)
    ensures order == explicit + LeftOut(keys, cs)
  {
    order := explicit;
    for i := 0 to |cs|
      invariant order + LeftOut(keys, cs[i..]) == explicit + LeftOut(keys, cs)
    {
      assert cs[i..][1..] == cs[i + 1..];
      if cs[i].key !in keys {
        order := order + [cs[i].id];
      }
    }
    assert order + [] == order;
  }

  method DraftTasks(ds: seq<NewTaskDraft>, g: seq<Keyed>) returns (r: Option<seq<NewTask>>)
    ensures r.Some? <==> forall i :: 0 <= i < |ds| ==> DraftOk(ds[i], g)
    ensures r.Some? ==> r.value == Drafted(ds, g)
  {
    var out: seq<NewTask> := [];
    for i := 0 to |ds|
      invariant forall j :: 0 <= j < i ==> DraftOk(ds[j], g)
      invariant |out| == i && forall j :: 0 <= j < i ==> out[j] == NewTask(CleanAiText(ds[j].title), Lookup(g, ds[j].direction))
    {
      hide CleanAiText, Lookup;
      var title := CleanAiText(ds[i].title);
      if title == "" {
        return None;
      }
      if |title| > MAX_NEW_TASK_TITLE_CHARS {
        return None;
      }
      var id := Lookup(g, ds[i].direction);
      if id.None? {
        return None;
      }
      out := out + [NewTask(title, id)];
    }
    return Some(out);
  }

  /** Every key must be one of this run's and none may repeat; the order is
      completed with what the model left out; anything else is bad output. */
  method ParseProposeReply(reply: Option<ModelPropose>, p: seq<Keyed>, w: seq<Keyed>, g: seq<Keyed>)
    returns (r: Result<ProposeDecision, string>)
    ensures r.Ok? <==> reply.Some? && Acceptable(reply.value, p, w, g)
    ensures r.Ok? ==> r.value == Decided(reply.value, p, w, g)
    ensures r.Err? ==> r.error == BAD_OUTPUT
    ensures r == ParsedReply(reply, p, w, g)
  {
    hide DraftOk, Distinct, AllKnown, Lookup, LeftOut;
    if reply.None? {
      return Err(BAD_OUTPUT);
    }
    var m := reply.value;
    if |m.reason| > MAX_REASON_CHARS {
      return Err(BAD_OUTPUT);
    }
    var once := DedupeOrBadOutput(m.carry);
    if !once {
      return Err(BAD_OUTPUT);
    }
    var carry := Choose(m.carry, p);
    if carry.None? {
      return Err(BAD_OUTPUT);
    }
    once := DedupeOrBadOutput(m.order);
    if !once {
      return Err(BAD_OUTPUT);
    }
    var explicit := Choose(m.order, w);
    if explicit.None? {
      return Err(BAD_OUTPUT);
    }
    var order := Complete(m.order, explicit.value, w);
    if |m.newTasks| > MAX_NEW_TASKS {
      return Err(BAD_OUTPUT);
    }
    var newTasks := DraftTasks(m.newTasks, g);
    if newTasks.None? {
      return Err(BAD_OUTPUT);
    }
    return Ok(ProposeDecision(carry.value, order, newTasks.value, m.reason));
  }

  // -------------------------------------------------------- order completion

  lemma {:induction false} LookupIs(cs: seq<Keyed>, i: nat)
    requires i < |cs| && DistinctKeys(cs)
    ensures Lookup(cs, cs[i].key) == Some(cs[i].id)
  {
    if i > 0 {
      assert cs[0].key != cs[i].key;
      LookupIs(cs[1..], i - 1);
    }
  }

  lemma {:induction false} NothingLeftOut(cs: seq<Keyed>)
    ensures LeftOut([], cs) == Ids(cs)
  {
    if cs != [] {
      NothingLeftOut(cs[1..]);
      assert Ids(cs) == [cs[0].id] + Ids(cs[1..]);
    }
  }

  lemma {:induction false} SameLeftOut(keys: seq<string>, key: string, cs: seq<Keyed>)
    requires forall i :: 0 <= i < |cs| ==> cs[i].key != key
    ensures LeftOut([key] + keys, cs) == LeftOut(keys, cs)
  {
    if cs != [] {
      SameLeftOut(keys, key, cs[1..]);
      assert cs[0].key in [key] + keys <==> cs[0].key in keys;
    }
  }

  /** Naming one more candidate takes exactly that one out of the rest. */
  lemma {:induction false} OneMoreChosen(keys: seq<string>, key: string, cs: seq<Keyed>)
    requires DistinctKeys(cs) && key !in keys && Lookup(cs, key).Some?
    ensures multiset(LeftOut(keys, cs)) == multiset(LeftOut([key] + keys, cs)) + multiset{Lookup(cs, key).value}
  {
    var c, rest := cs[0], cs[1..];
    assert cs == [c] + rest;
    if c.key == key {
      assert forall i :: 0 <= i < |rest| ==> rest[i] == cs[i + 1];
      SameLeftOut(keys, key, rest);
      HeadLeftOut(keys, c, rest);
      HeadLeftOut([key] + keys, c, rest);
    } else {
      OneMoreChosen(keys, key, rest);
      HeadLeftOut(keys, c, rest);
      HeadLeftOut([key] + keys, c, rest);
      assert c.key in [key] + keys <==> c.key in keys;
    }
  }

  lemma HeadLeftOut(keys: seq<string>, c: Keyed, rest: seq<Keyed>)
    ensures multiset(LeftOut(keys, [c] + rest)) ==
              (if c.key in keys then multiset{} else multiset{c.id}) + multiset(LeftOut(keys, rest))
  {
    assert ([c] + rest)[1..] == rest;
    assert multiset([c.id] + LeftOut(keys, rest)) == multiset{c.id} + multiset(LeftOut(keys, rest));
    assert [] + LeftOut(keys, rest) == LeftOut(keys, rest);
  }

  lemma {:induction false} ChosenAndLeftOut(keys: seq<string>, cs: seq<Keyed>)
    requires DistinctKeys(cs) && Distinct(keys) && AllKnown(keys, cs)
    ensures multiset(Chosen(keys, cs) + LeftOut(keys, cs)) == multiset(Ids(cs))
  {
    if keys == [] {
      NothingLeftOut(cs);
      assert Chosen(keys, cs) + LeftOut(keys, cs) == Ids(cs);
    } else {
      var key, rest := keys[0], keys[1..];
      assert keys == [key] + rest;
      DistinctTail(keys);
      AllKnownTail(keys, cs);
      ChosenAndLeftOut(rest, cs);
      OneMoreChosen(rest, key, cs);
      hide Lookup, LeftOut;
      assert Chosen(keys, cs) == [Lookup(cs, key).value] + Chosen(rest, cs);
      assert multiset(Chosen(keys, cs)) == multiset{Lookup(cs, key).value} + multiset(Chosen(rest, cs));
    }
  }

  lemma DistinctTail(keys: seq<string>)
    requires Distinct(keys) && keys != []
    ensures Distinct(keys[1..]) && keys[0] !in keys[1..]
  {
  }

  lemma AllKnownTail(keys: seq<string>, cs: seq<Keyed>)
    requires AllKnown(keys, cs) && keys != []
    ensures AllKnown(keys[1..], cs) && Lookup(cs, keys[0]).Some?
  {
    hide Lookup;
    assert forall i :: 0 <= i < |keys| - 1 ==> keys[1..][i] == keys[i + 1];
  }

  /** The order of an accepted reply is a permutation of the week's candidates:
      what the model named comes first, as it named it, and what it left out
      follows in the order it already had. */
  lemma OrderIsComplete(m: ModelPropose, p: seq<Keyed>, ids: seq<Id>, g: seq<Keyed>)
    requires Acceptable(m, p, KeyedIds("w", ids), g)
    ensures var w, order := KeyedIds("w", ids), Decided(m, p, KeyedIds("w", ids), g).order;
            && multiset(order) == multiset(ids)
            && Chosen(m.order, w) <= order && order[|m.order|..] == LeftOut(m.order, w)
  {
    hide Lookup, LeftOut, DraftOk, Distinct, AllKnown;
    KeyedAreDistinct("w", ids);
    ChosenAndLeftOut(m.order, KeyedIds("w", ids));
    assert Ids(KeyedIds("w", ids)) == ids;
  }

  lemma {:induction false} LookupWhere(cs: seq<Keyed>, key: string) returns (i: nat)
    requires Lookup(cs, key).Some?
    ensures i < |cs| && cs[i].key == key && Lookup(cs, key) == Some(cs[i].id)
  {
    if cs[0].key == key {
      i := 0;
    } else {
      var j := LookupWhere(cs[1..], key);
      i := j + 1;
    }
  }

  /** Distinct keys of distinct candidates name distinct candidates. */
  lemma ChosenIsDistinct(keys: seq<string>, cs: seq<Keyed>)
    requires Distinct(keys) && AllKnown(keys, cs) && Distinct(Ids(cs))
    ensures Distinct(Chosen(keys, cs)) && forall i :: 0 <= i < |keys| ==> Chosen(keys, cs)[i] in Ids(cs)
  {
    hide Lookup;
    forall i | 0 <= i < |keys| ensures Chosen(keys, cs)[i] in Ids(cs) {
      var k := LookupWhere(cs, keys[i]);
      assert Ids(cs)[k] == Chosen(keys, cs)[i];
    }
    forall i, j | 0 <= i < j < |keys| ensures Chosen(keys, cs)[i] != Chosen(keys, cs)[j] {
      var k := LookupWhere(cs, keys[i]);
      var l := LookupWhere(cs, keys[j]);
      assert Ids(cs)[k] == Chosen(keys, cs)[i] && Ids(cs)[l] == Chosen(keys, cs)[j];
      assert k != l;
    }
  }
}
