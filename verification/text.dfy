/** Cleaning of text that comes from users and models before it reaches a body. */
module Text {
  import opened Cron

  /** Unicode category Cc. */
  predicate IsControl(c: char) {
    c <= '\U{1F}' || '\U{7F}' <= c <= '\U{9F}'
  }

  /** Unicode category Cf. */
  predicate IsFormat(c: char) {
    || c == '\U{AD}' || '\U{600}' <= c <= '\U{605}' || c == '\U{61C}' || c == '\U{6DD}' || c == '\U{70F}'
    || '\U{890}' <= c <= '\U{891}' || c == '\U{8E2}' || c == '\U{180E}' || '\U{200B}' <= c <= '\U{200F}'
    || '\U{202A}' <= c <= '\U{202E}' || '\U{2060}' <= c <= '\U{2064}' || '\U{2066}' <= c <= '\U{206F}'
    || c == '\U{FEFF}' || '\U{FFF9}' <= c <= '\U{FFFB}' || c == '\U{110BD}' || c == '\U{110CD}'
    || '\U{13430}' <= c <= '\U{1343F}' || '\U{1BCA0}' <= c <= '\U{1BCA3}' || '\U{1D173}' <= c <= '\U{1D17A}'
    || c == '\U{E0001}' || '\U{E0020}' <= c <= '\U{E007F}'
  }

  predicate IsForbiddenControl(c: char) {
    (IsControl(c) && c != '\n') || c == '\U{2028}' || c == '\U{2029}'
  }

  /** What `normalize` writes for one character; `inWs` says a space was just written. */
  function Piece(c: char, inWs: bool): string {
    if IsFormat(c) then ""
    else if c != '\n' && IsWhitespace(c) then (if inWs then "" else " ")
    else [c]
  }

  function NextWs(c: char, inWs: bool): bool {
    if IsFormat(c) then inWs else c != '\n' && IsWhitespace(c)
  }

  /** The specification of `normalize`. */
  function NormalizeFrom(s: string, inWs: bool): string {
    if s == "" then "" else Piece(s[0], inWs) + NormalizeFrom(s[1..], NextWs(s[0], inWs))
  }

  function Normalized(s: string): string {
    NormalizeFrom(s, false)
  }

  lemma NormalizeStep(out: string, s: string, i: nat, inWs: bool)
    requires i < |s|
    ensures out + NormalizeFrom(s[i..], inWs)
            == (out + Piece(s[i], inWs)) + NormalizeFrom(s[i + 1..], NextWs(s[i], inWs))
  {
    assert s[i..][1..] == s[i + 1..];
  }

  /** Drops format characters and squeezes every run of spaces within a line. */
  method Normalize(s: string) returns (out: string)
    ensures out == Normalized(s)
  {
    out := "";
    var inWs := false;
    for i := 0 to |s|
      invariant out + NormalizeFrom(s[i..], inWs) == Normalized(s)
    {
      NormalizeStep(out, s, i, inWs);
      out := out + Piece(s[i], inWs);
      inWs := NextWs(s[i], inWs);
    }
    assert out + "" == out;
  }

  /** No format character, no whitespace but single spaces and line ends. */
  ghost predicate IsNormal(s: string) {
    && (forall i :: 0 <= i < |s| ==> !IsFormat(s[i]) && (IsWhitespace(s[i]) ==> s[i] == ' ' || s[i] == '\n'))
    && (forall i :: 0 < i < |s| && s[i - 1] == ' ' ==> s[i] != ' ')
  }

  lemma PieceIsNormal(c: char, inWs: bool)
    ensures IsNormal(Piece(c, inWs))
    ensures inWs ==> forall i :: 0 <= i < |Piece(c, inWs)| ==> Piece(c, inWs)[i] != ' '
    ensures |Piece(c, inWs)| <= 1
    ensures Piece(c, inWs) == " " ==> NextWs(c, inWs)
    ensures Piece(c, inWs) == "" && inWs ==> NextWs(c, inWs)
    ensures Piece(c, inWs) != "" && Piece(c, inWs)[0] != ' ' ==> Piece(c, inWs)[0] == c
  {
  }

  lemma {:induction false} NormalizedIsNormal(s: string, inWs: bool)
    ensures IsNormal(NormalizeFrom(s, inWs))
    ensures inWs && NormalizeFrom(s, inWs) != "" ==> NormalizeFrom(s, inWs)[0] != ' '
    ensures forall i :: 0 <= i < |NormalizeFrom(s, inWs)| && NormalizeFrom(s, inWs)[i] != ' ' ==> NormalizeFrom(s, inWs)[i] in s
  {
    if s != "" {
      PieceIsNormal(s[0], inWs);
      NormalizedIsNormal(s[1..], NextWs(s[0], inWs));
    }
  }

  // ---------------------------------------------------------- inline titles

  /** What survives of one character of a title: `None` never does. */
  function DropControls(s: string): string {
    if s == "" then ""
    else if s[0] == '\r' then " " + DropControls(s[1..])
    else if IsForbiddenControl(s[0]) then DropControls(s[1..])
    else [s[0]] + DropControls(s[1..])
  }

  function Unlined(s: string): string {
    seq(|s|, i requires 0 <= i < |s| => if s[i] == '\n' then ' ' else s[i])
  }

  predicate IsMarkdown(c: char) {
    c in ['\\', '`', '*', '_', '[', ']', '(', ')', '#', '|', '~', '!']
  }

  function Escape(c: char): string {
    if IsMarkdown(c) then ['\\', c]
    else if c == '<' then "\U{FF1C}"
    else if c == '>' then "\U{FF1E}"
    else if c == '&' then "\U{FF06}"
    else if c == '\U{3014}' then "\U{FF3B}"
    else if c == '\U{3015}' then "\U{FF3D}"
    else if c == '\U{300C}' then "\U{300E}"
    else if c == '\U{300D}' then "\U{300F}"
    else [c]
  }

  function EscapeAll(s: string): string {
    if s == "" then "" else Escape(s[0]) + EscapeAll(s[1..])
  }

  function Flat(s: string): string {
    Trim(Unlined(Normalized(DropControls(s))))
  }

  /** The specification of `sanitize_inline`. */
  function Sanitized(s: string): string {
    EscapeAll(Flat(s))
  }

  lemma EscapeStep(out: string, s: string, i: nat)
    requires i < |s|
    ensures out + EscapeAll(s[i..]) == (out + Escape(s[i])) + EscapeAll(s[i + 1..])
  {
    hide Escape;
    assert s[i..][1..] == s[i + 1..];
  }

  lemma DropStep(kept: string, s: string, i: nat)
    requires i < |s|
    ensures var c, rest := s[i], DropControls(s[i + 1..]);
            kept + DropControls(s[i..])
              == (if c == '\r' then kept + " " else if IsForbiddenControl(c) then kept else kept + [c]) + rest
  {
    hide IsForbiddenControl;
    assert s[i..][1..] == s[i + 1..];
  }

  method SanitizeInline(s: string) returns (out: string)
    ensures out == Sanitized(s)
  {
    hide Escape, EscapeAll, DropControls, IsForbiddenControl, NormalizeFrom, TrimStart, TrimEnd;
    var kept := "";
    for i := 0 to |s|
      invariant kept + DropControls(s[i..]) == DropControls(s)
    {
      DropStep(kept, s, i);
      if s[i] == '\r' {
        kept := kept + " ";
      } else if !IsForbiddenControl(s[i]) {
        kept := kept + [s[i]];
      }
    }
    assert s[|s|..] == "";
    NothingLeft(kept);
    var flat := Normalize(kept);
    flat := Trim(Unlined(flat));
    out := "";
    for i := 0 to |flat|
      invariant out + EscapeAll(flat[i..]) == EscapeAll(flat)
    {
      EscapeStep(out, flat, i);
      out := out + Escape(flat[i]);
    }
    assert flat[|flat|..] == "";
    NothingLeft(out);
  }

  lemma NothingLeft(out: string)
    ensures out + EscapeAll("") == out && out + DropControls("") == out
  {
  }

  /** What a title can never smuggle into a body. */
  predicate Inert(c: char) {
    && c !in ['<', '>', '&', '\U{3014}', '\U{3015}', '\U{300C}', '\U{300D}', '\n', '\r']
    && !IsForbiddenControl(c) && !IsFormat(c) && (IsWhitespace(c) ==> c == ' ')
  }

  predicate AllInert(s: string) {
    forall i :: 0 <= i < |s| ==> Inert(s[i])
  }

  /** A character on its way through `sanitize_inline`, brackets still in place. */
  predicate Printable(c: char) {
    c != '\n' && !IsForbiddenControl(c) && !IsFormat(c) && (IsWhitespace(c) ==> c == ' ')
  }

  lemma {:induction false} DropControlsClean(s: string)
    ensures forall i :: 0 <= i < |DropControls(s)| ==> !IsForbiddenControl(DropControls(s)[i])
  {
    if s != "" {
      DropControlsClean(s[1..]);
    }
  }

  lemma {:induction false} TrimKeeps(s: string)
    ensures forall c :: c in Trim(s) ==> c in s
  {
    TrimStartKeeps(s);
    TrimEndKeeps(TrimStart(s));
  }

  lemma {:induction false} TrimStartKeeps(s: string)
    ensures forall c :: c in TrimStart(s) ==> c in s
  {
    if s != "" && IsWhitespace(s[0]) {
      TrimStartKeeps(s[1..]);
    }
  }

  lemma {:induction false} TrimEndKeeps(s: string)
    ensures forall c :: c in TrimEnd(s) ==> c in s
  {
    if s != "" && IsWhitespace(s[|s| - 1]) {
      TrimEndKeeps(s[..|s| - 1]);
    }
  }

  /** What escaping puts in the place of a special character. */
  predicate IsStandIn(x: char) {
    x in ['\\', '\U{FF1C}', '\U{FF1E}', '\U{FF06}', '\U{FF3B}', '\U{FF3D}', '\U{300E}', '\U{300F}']
  }

  predicate IsOpener(c: char) {
    c in ['<', '>', '&', '\U{3014}', '\U{3015}', '\U{300C}', '\U{300D}']
  }

  lemma StandInIsInert(x: char)
    requires IsStandIn(x)
    ensures Inert(x)
  {
  }

  lemma EscapeStandsIn(c: char, x: char)
    requires x in Escape(c)
    ensures IsStandIn(x) || (x == c && !IsOpener(c))
  {
  }

  lemma PrintableEscape(c: char, x: char)
    requires Printable(c) && x in Escape(c)
    ensures Inert(x)
  {
    EscapeStandsIn(c, x);
    hide Escape, IsStandIn, IsFormat, IsWhitespace, IsControl;
    if IsStandIn(x) {
      StandInIsInert(x);
    }
  }

  lemma EscapeInert(c: char)
    requires Printable(c)
    ensures AllInert(Escape(c))
  {
    var e := Escape(c);
    forall i | 0 <= i < |e| ensures Inert(e[i]) {
      PrintableEscape(c, e[i]);
    }
  }

  lemma {:induction false} EscapeAllInert(s: string)
    requires forall c :: c in s ==> Printable(c)
    ensures AllInert(EscapeAll(s))
  {
    if s != "" {
      EscapeInert(s[0]);
      EscapeAllInert(s[1..]);
    }
  }

  /** Whatever the user typed as a title, its inline form holds no markup
      opener, no unit or title bracket, no line end and no control. */
  lemma SanitizedIsInert(s: string)
    ensures AllInert(Sanitized(s))
  {
    var a := DropControls(s);
    DropControlsClean(s);
    var b := Normalized(a);
    NormalizedIsNormal(a, false);
    var u := Unlined(b);
    forall c | c in u ensures Printable(c) {
      var i :| 0 <= i < |u| && u[i] == c;
      assert b[i] != ' ' ==> b[i] in a;
    }
    TrimKeeps(u);
    EscapeAllInert(Trim(u));
  }
}
