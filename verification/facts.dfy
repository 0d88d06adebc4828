/** The weekly numbers as the program prints them: keyed facts, and the
    bracketed unit each one is rendered as. */
module Facts {
  import opened Prelude
  import opened Decimal
  import opened Text

  datatype Bucket = Bucket(caption: Option<string>, minutes: int)

  datatype RoutineRow = RoutineRow(caption: string, fired: int, completed: int)

  datatype Draft = Draft(week: string, byArea: seq<Bucket>, byDirection: seq<Bucket>, tasksDone: int,
                         routines: seq<RoutineRow>)

  datatype Fact = Fact(key: string, caption: string, value: string)

  const OPEN_UNIT: char := '\U{3014}'
  const CLOSE_UNIT: char := '\U{3015}'
  const OPEN_TITLE: char := '\U{300C}'
  const CLOSE_TITLE: char := '\U{300D}'
  const COLON: char := '\U{FF1A}'

  const UNASSIGNED: string := "未分类"

  function HourMinutes(minutes: int): string {
    var m := if minutes > 0 then minutes else 0;
    Print(m / 60) + " 小时 " + Print(m % 60) + " 分钟"
  }

  function Named(before: string, caption: string, after: string): string {
    before + [OPEN_TITLE] + Sanitized(caption) + [CLOSE_TITLE] + after
  }

  function LabelOf(b: Bucket): string {
    if b.caption.Some? then b.caption.value else UNASSIGNED
  }

  function BucketEntry(kind: string, b: Bucket): (string, string) {
    (Named(kind, LabelOf(b), "投入"), HourMinutes(b.minutes))
  }

  function RoutineEntry(r: RoutineRow): (string, string) {
    (Named("节律", r.caption, ""), "触发 " + PrintInt(r.fired) + " 次 / 完成 " + PrintInt(r.completed) + " 次")
  }

  function BucketEntries(kind: string, bs: seq<Bucket>): seq<(string, string)> {
    seq(|bs|, i requires 0 <= i < |bs| => BucketEntry(kind, bs[i]))
  }

  function RoutineEntries(rs: seq<RoutineRow>): seq<(string, string)> {
    seq(|rs|, i requires 0 <= i < |rs| => RoutineEntry(rs[i]))
  }

  const AREA: string := "领域"
  const DIRECTION: string := "方向"

  /** One caption and value per number in the draft, in print order. */
  function Entries(d: Draft): seq<(string, string)> {
    BucketEntries(AREA, d.byArea) + BucketEntries(DIRECTION, d.byDirection)
    + [("完成任务数", PrintInt(d.tasksDone))] + RoutineEntries(d.routines)
  }

  /** The entry pushed at position i gets the key f(i+1). */
  function Keyed(entries: seq<(string, string)>): (fs: seq<Fact>)
    ensures |fs| == |entries|
  {
    seq(|entries|, i requires 0 <= i < |entries| => Fact("f" + Print(i + 1), entries[i].0, entries[i].1))
  }

  /** The next free key goes to the entry pushed now. */
  method Push(fs: seq<Fact>, ghost entries: seq<(string, string)>, caption: string, value: string)
    returns (out: seq<Fact>)
    requires fs == Keyed(entries)
    ensures out == Keyed(entries + [(caption, value)])
  {
    var key := "f" + Print(|fs| + 1);
    out := fs + [Fact(key, caption, value)];
  }

  lemma BucketEntriesSnoc(kind: string, bs: seq<Bucket>, i: nat)
    requires i < |bs|
    ensures BucketEntries(kind, bs[..i + 1]) == BucketEntries(kind, bs[..i]) + [BucketEntry(kind, bs[i])]
  {
    hide BucketEntry;
  }

  lemma RoutineEntriesSnoc(rs: seq<RoutineRow>, i: nat)
    requires i < |rs|
    ensures RoutineEntries(rs[..i + 1]) == RoutineEntries(rs[..i]) + [RoutineEntry(rs[i])]
  {
    hide RoutineEntry;
  }

  method PushBuckets(fs: seq<Fact>, ghost entries: seq<(string, string)>, kind: string, bs: seq<Bucket>)
    returns (out: seq<Fact>)
    requires fs == Keyed(entries)
    ensures out == Keyed(entries + BucketEntries(kind, bs))
  {
    out := fs;
    assert entries + BucketEntries(kind, bs[..0]) == entries;
    for i := 0 to |bs|
      invariant out == Keyed(entries + BucketEntries(kind, bs[..i]))
    {
      var caption := BucketCaption(kind, bs[i]);
      out := Push(out, entries + BucketEntries(kind, bs[..i]), caption, HourMinutes(bs[i].minutes));
      BucketEntriesSnoc(kind, bs, i);
      Regroup3(entries, BucketEntries(kind, bs[..i]), [BucketEntry(kind, bs[i])]);
    }
    assert bs[..|bs|] == bs;
  }

  method BucketCaption(kind: string, b: Bucket) returns (caption: string)
    ensures caption == Named(kind, LabelOf(b), "投入")
  {
    var name := SanitizeInline(LabelOf(b));
    caption := kind + [OPEN_TITLE] + name + [CLOSE_TITLE] + "投入";
  }

  method RoutineCaption(r: RoutineRow) returns (caption: string)
    ensures caption == Named("节律", r.caption, "")
  {
    var name := SanitizeInline(r.caption);
    caption := "节律" + [OPEN_TITLE] + name + [CLOSE_TITLE];
  }

  lemma Regroup3<T>(a: seq<T>, b: seq<T>, c: seq<T>)
    ensures (a + b) + c == a + (b + c)
  {
  }

  method PushRoutines(fs: seq<Fact>, ghost entries: seq<(string, string)>, rs: seq<RoutineRow>)
    returns (out: seq<Fact>)
    requires fs == Keyed(entries)
    ensures out == Keyed(entries + RoutineEntries(rs))
  {
    out := fs;
    assert entries + RoutineEntries(rs[..0]) == entries;
    for i := 0 to |rs|
      invariant out == Keyed(entries + RoutineEntries(rs[..i]))
    {
      var caption := RoutineCaption(rs[i]);
      out := Push(out, entries + RoutineEntries(rs[..i]), caption, RoutineEntry(rs[i]).1);
      RoutineEntriesSnoc(rs, i);
      Regroup3(entries, RoutineEntries(rs[..i]), [RoutineEntry(rs[i])]);
    }
    assert rs[..|rs|] == rs;
  }

  /** Every number of the draft, pushed with the next free key. */
  method BuildFacts(d: Draft) returns (out: seq<Fact>)
    ensures out == Keyed(Entries(d))
  {
    ghost var a := BucketEntries(AREA, d.byArea);
    ghost var b := a + BucketEntries(DIRECTION, d.byDirection);
    out := PushBuckets([], [], AREA, d.byArea);
    assert [] + a == a;
    out := PushBuckets(out, a, DIRECTION, d.byDirection);
    out := Push(out, b, "完成任务数", PrintInt(d.tasksDone));
    out := PushRoutines(out, b + [("完成任务数", PrintInt(d.tasksDone))], d.routines);
  }

  function RenderUnit(f: Fact): string {
    [OPEN_UNIT] + f.caption + [COLON] + f.value + [CLOSE_UNIT]
  }

  function RenderTitle(title: string): string {
    [OPEN_TITLE] + Sanitized(title) + [CLOSE_TITLE]
  }

  // ---------------------------------------------------------------- keys

  const USIZE_MAX: nat := 0xFFFF_FFFF_FFFF_FFFF

  datatype Kind = FactKey | TitleKey

  function KindChar(k: Kind): char {
    match k case FactKey => 'f' case TitleKey => 't'
  }

  /** `fN` / `tN` with N in canonical decimal, N >= 1, within the machine word. */
  function ParseKey(key: string): Option<(Kind, nat)> {
    if key == "" then None
    else
      var num := key[1..];
      if !(key[0] == 'f' || key[0] == 't') || num == "" || num[0] == '0' || !AllDigits(num) then None
      else
        var n := Read(num);
        if n > USIZE_MAX then None else Some((if key[0] == 'f' then FactKey else TitleKey, n))
  }

  /** The parser accepts exactly what the program prints as a key, and reads the
      same number back. */
  lemma ParseKeyExact(key: string, k: Kind, n: nat)
    ensures ParseKey(key) == Some((k, n)) <==> 1 <= n <= USIZE_MAX && key == [KindChar(k)] + Print(n)
  {
    if ParseKey(key) == Some((k, n)) {
      PrintRead(key[1..]);
      assert key == [key[0]] + key[1..];
    }
    if 1 <= n <= USIZE_MAX && key == [KindChar(k)] + Print(n) {
      ReadPrint(n);
      assert key[1..] == Print(n);
    }
  }

  function FindFact(fs: seq<Fact>, key: string): (r: Option<Fact>)
    ensures r.Some? ==> r.value in fs && r.value.key == key
    ensures r.None? ==> forall i :: 0 <= i < |fs| ==> fs[i].key != key
  {
    if fs == [] then None else if fs[0].key == key then Some(fs[0]) else FindFact(fs[1..], key)
  }

  /** Every printed fact is found under its own key, and no key finds another fact. */
  lemma KeysDistinct(entries: seq<(string, string)>, i: nat)
    requires i < |entries|
    ensures FindFact(Keyed(entries), Keyed(entries)[i].key) == Some(Keyed(entries)[i])
  {
    hide FindFact, Print, Read;
    var fs := Keyed(entries);
    var r := FindFact(fs, fs[i].key);
    assert fs[i] in fs;
    var j :| 0 <= j < |fs| && fs[j] == r.value;
    FactKeyInjective(j + 1, i + 1);
  }

  lemma FactKeyInjective(a: nat, b: nat)
    requires "f" + Print(a) == "f" + Print(b)
    ensures a == b
  {
    hide Print, Read;
    assert ("f" + Print(a))[1..] == Print(a) && ("f" + Print(b))[1..] == Print(b);
    ReadPrint(a);
    ReadPrint(b);
  }

  // ------------------------------------------------------- what a unit holds

  /** Characters a rendered unit may hold between its brackets. */
  predicate UnitInner(c: char) {
    c !in ['<', '&', '\n', OPEN_UNIT, CLOSE_UNIT]
  }

  predicate AllUnitInner(s: string) {
    forall i :: 0 <= i < |s| ==> UnitInner(s[i])
  }

  lemma PrintIsInner(n: int)
    ensures AllUnitInner(PrintInt(n)) && (n >= 0 ==> AllUnitInner(Print(n)))
  {
    if n >= 0 {
      DigitsInner(Print(n));
    } else {
      DigitsInner(Print(-n));
    }
  }

  lemma DigitsInner(s: string)
    requires AllDigits(s)
    ensures AllUnitInner(s)
  {
  }

  lemma InertIsInner(s: string)
    requires AllInert(s)
    ensures AllUnitInner(s)
  {
  }

  lemma NamedIsInner(before: string, caption: string, after: string)
    requires AllUnitInner(before) && AllUnitInner(after)
    ensures AllUnitInner(Named(before, caption, after))
  {
    SanitizedIsInert(caption);
    InertIsInner(Sanitized(caption));
  }

  lemma InnerConcat(a: string, b: string)
    requires AllUnitInner(a) && AllUnitInner(b)
    ensures AllUnitInner(a + b)
  {
  }

  predicate EntryInner(e: (string, string)) {
    AllUnitInner(e.0) && AllUnitInner(e.1)
  }

  lemma RoutineEntryInner(r: RoutineRow)
    ensures EntryInner(RoutineEntry(r))
  {
    NamedIsInner("节律", r.caption, "");
    PrintIsInner(r.fired);
    PrintIsInner(r.completed);
    var a := "触发 " + PrintInt(r.fired);
    InnerConcat("触发 ", PrintInt(r.fired));
    InnerConcat(a, " 次 / 完成 ");
    InnerConcat(a + " 次 / 完成 ", PrintInt(r.completed));
    InnerConcat(a + " 次 / 完成 " + PrintInt(r.completed), " 次");
  }

  lemma BucketEntryInner(kind: string, b: Bucket)
    requires AllUnitInner(kind)
    ensures EntryInner(BucketEntry(kind, b))
  {
    NamedIsInner(kind, LabelOf(b), "投入");
    HourMinutesInner(b.minutes);
  }

  lemma CountEntryInner(n: int)
    ensures EntryInner(("完成任务数", PrintInt(n)))
  {
    PrintIsInner(n);
  }

  /** No caption a user can choose, and no number, puts a line end, a tag opener
      or a unit bracket inside a unit. */
  lemma FactsAreInner(d: Draft, i: nat)
    requires i < |Entries(d)|
    ensures EntryInner(Entries(d)[i])
  {
    hide BucketEntry, RoutineEntry, PrintInt, EntryInner;
    var n, m := |d.byArea|, |d.byArea| + |d.byDirection|;
    if i < n {
      BucketEntryInner(AREA, d.byArea[i]);
    } else if i < m {
      BucketEntryInner(DIRECTION, d.byDirection[i - n]);
    } else if i == m {
      CountEntryInner(d.tasksDone);
    } else {
      RoutineEntryInner(d.routines[i - m - 1]);
    }
  }

  lemma HourMinutesInner(minutes: int)
    ensures AllUnitInner(HourMinutes(minutes))
  {
    var m := if minutes > 0 then minutes else 0;
    PrintIsInner(m / 60);
    PrintIsInner(m % 60);
  }
}
