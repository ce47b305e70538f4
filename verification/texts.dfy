// Trimming and upper-casing of ASCII text.
module Texts {
  predicate IsSpace(c: char) {
    c in " \t\n\r" || c == 11 as char || c == 12 as char
  }

  function TrimLeft(s: string): string {
    if s != "" && IsSpace(s[0]) then TrimLeft(s[1..]) else s
  }

  function TrimRight(s: string): string {
    if s != "" && IsSpace(s[|s| - 1]) then TrimRight(s[..|s| - 1]) else s
  }

  function TrimSpace(s: string): string {
    TrimRight(TrimLeft(s))
  }

  function ToUpper(s: string): string {
    if s == "" then "" else [if 'a' <= s[0] <= 'z' then s[0] - 32 as char else s[0]] + ToUpper(s[1..])
  }

  predicate Blank(s: string) {
    forall i | 0 <= i < |s| :: IsSpace(s[i])
  }

  lemma {:induction false} TrimLeftSplits(s: string) returns (before: string)
    ensures s == before + TrimLeft(s) && Blank(before)
    ensures TrimLeft(s) != "" ==> !IsSpace(TrimLeft(s)[0])
  {
    before := "";
    if s != "" && IsSpace(s[0]) {
      before := TrimLeftSplits(s[1..]);
      before := [s[0]] + before;
      assert s == [s[0]] + s[1..];
    }
  }

  lemma {:induction false} TrimRightSplits(s: string) returns (after: string)
    ensures s == TrimRight(s) + after && Blank(after)
    ensures TrimRight(s) != "" ==> !IsSpace(TrimRight(s)[|TrimRight(s)| - 1])
  {
    after := "";
    if s != "" && IsSpace(s[|s| - 1]) {
      after := TrimRightSplits(s[..|s| - 1]);
      after := after + [s[|s| - 1]];
      assert s == s[..|s| - 1] + [s[|s| - 1]];
    }
  }

  // `t` is `s` without the white space at its ends.
  ghost predicate IsTrimmed(t: string, s: string) {
    && (exists before, after :: s == before + t + after && Blank(before) && Blank(after))
    && (t != "" ==> !IsSpace(t[0]) && !IsSpace(t[|t| - 1]))
  }

  // Trimming gives such a text, and there is only one.
  lemma TrimExact(s: string, t: string)
    ensures IsTrimmed(t, s) <==> t == TrimSpace(s)
  {
    TrimIsTrimmed(s);
    if IsTrimmed(t, s) { OneTrimmed(s, t, TrimSpace(s)); }
  }

  lemma TrimIsTrimmed(s: string)
    ensures IsTrimmed(TrimSpace(s), s)
  {
    var before := TrimLeftSplits(s);
    var after := TrimRightSplits(TrimLeft(s));
    assert s == before + TrimSpace(s) + after;
    if TrimSpace(s) != "" { assert TrimSpace(s)[0] == TrimLeft(s)[0]; }
  }

  // Everything before a trimmed text and behind it is white space, its own ends are not.
  lemma Surrounded(s: string, t: string, before: string, after: string)
    requires s == before + t + after && Blank(before) && Blank(after)
    ensures forall i | 0 <= i < |s| && !(|before| <= i < |before| + |t|) :: IsSpace(s[i])
    ensures t == s[|before|..|before| + |t|]
  {
    forall i | 0 <= i < |s| && !(|before| <= i < |before| + |t|) ensures IsSpace(s[i]) {
      assert s[i] == if i < |before| then before[i] else after[i - |before| - |t|];
    }
  }

  lemma OneTrimmed(s: string, t: string, u: string)
    requires IsTrimmed(t, s) && IsTrimmed(u, s)
    ensures t == u
  {
    var b, a :| s == b + t + a && Blank(b) && Blank(a);
    var d, c :| s == d + u + c && Blank(d) && Blank(c);
    Surrounded(s, t, b, a);
    Surrounded(s, u, d, c);
    assert t != "" ==> s[|b|] == t[0] && s[|b| + |t| - 1] == t[|t| - 1];
    assert u != "" ==> s[|d|] == u[0] && s[|d| + |u| - 1] == u[|u| - 1];
  }

  lemma {:induction false} UpperExact(s: string)
    ensures |ToUpper(s)| == |s|
    ensures forall i | 0 <= i < |s| ::
              ToUpper(s)[i] as int == if 'a' <= s[i] <= 'z' then s[i] as int - 32 else s[i] as int
  {
    if s != "" { UpperExact(s[1..]); }
  }
}
