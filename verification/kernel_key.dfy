/** How a Routine id becomes the key the kernel scheduler stores it under, and
    back. The kernel accepts lower-case keys only, while ids are upper-case. */
module KernelKey {
  const PREFIX: string := "routine."

  predicate IsAsciiUpper(c: char) { 'A' <= c <= 'Z' }

  predicate IsAsciiLower(c: char) { 'a' <= c <= 'z' }

  function LowerChar(c: char): char {
    if IsAsciiUpper(c) then 'a' + (c - 'A') else c
  }

  function UpperChar(c: char): char {
    if IsAsciiLower(c) then 'A' + (c - 'a') else c
  }

  function AsciiLower(s: string): (r: string) {
    seq(|s|, i requires 0 <= i < |s| => LowerChar(s[i]))
  }

  function AsciiUpper(s: string): (r: string) {
    seq(|s|, i requires 0 <= i < |s| => UpperChar(s[i]))
  }

  /** The schedule key of a Routine. */
  function RoutineKey(id: string): string {
    PREFIX + AsciiLower(id)
  }

  /** An id without lower-case letters: every ULID is one. */
  predicate Canonical(id: string) {
    forall i :: 0 <= i < |id| ==> !IsAsciiLower(id[i])
  }

  /** A key without upper-case letters: the kernel's own charset has none. */
  predicate LowerKey(key: string) {
    forall i :: 0 <= i < |key| ==> !IsAsciiUpper(key[i])
  }

  predicate HasPrefix(key: string) {
    PREFIX <= key
  }

  /** The id the reconciler recovers from a key under its own prefix. */
  function RecoveredId(key: string): string
    requires HasPrefix(key)
  {
    AsciiUpper(key[|PREFIX|..])
  }

  lemma UpperOfLower(id: string)
    requires Canonical(id)
    ensures AsciiUpper(AsciiLower(id)) == id
  {
    forall i | 0 <= i < |id|
      ensures AsciiUpper(AsciiLower(id))[i] == id[i]
    {
    }
  }

  lemma LowerOfUpper(s: string)
    requires LowerKey(s)
    ensures AsciiLower(AsciiUpper(s)) == s
  {
    forall i | 0 <= i < |s|
      ensures AsciiLower(AsciiUpper(s))[i] == s[i]
    {
    }
  }

  /** Key to id and back: the pair of case foldings loses nothing, in either
      direction, on the strings each side really uses. */
  lemma KeyRoundTrip(id: string, key: string)
    ensures Canonical(id) ==> HasPrefix(RoutineKey(id)) && RecoveredId(RoutineKey(id)) == id
    ensures HasPrefix(key) && LowerKey(key)
            ==> RoutineKey(RecoveredId(key)) == key && Canonical(RecoveredId(key))
    ensures HasPrefix(key) <==> "routine." <= key
  {
    if Canonical(id) {
      assert RoutineKey(id)[|PREFIX|..] == AsciiLower(id);
      UpperOfLower(id);
    }
    if HasPrefix(key) && LowerKey(key) {
      var rest := key[|PREFIX|..];
      assert LowerKey(rest) by {
        forall i | 0 <= i < |rest| ensures !IsAsciiUpper(rest[i]) { assert rest[i] == key[|PREFIX| + i]; }
      }
      LowerOfUpper(rest);
      assert key == PREFIX + rest;
    }
  }

  /** No two Routines share a schedule key. */
  lemma RoutineKeyInjective(a: string, b: string)
    requires Canonical(a) && Canonical(b)
    requires RoutineKey(a) == RoutineKey(b)
    ensures a == b
  {
    KeyRoundTrip(a, RoutineKey(a));
    KeyRoundTrip(b, RoutineKey(b));
  }

  /** Without `Canonical` the mapping does collide: two ids differing in case
      only would be one kernel schedule. */
  lemma CaseOnlyIdsCollide()
    ensures RoutineKey("R") == RoutineKey("r") && "R" != "r"
  {
    assert AsciiLower("R") == "r";
    assert AsciiLower("r") == "r";
  }
}
