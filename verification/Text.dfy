/** The string operations the client and the API rely on: trim, contains, replaceAll. */
module Text {

  predicate IsSpace(c: char) {
    c == ' ' || c == '\t' || c == '\n' || c == '\r'
  }

  function TrimLeft(s: string): string {
    if s != "" && IsSpace(s[0]) then TrimLeft(s[1..]) else s
  }

  function TrimRight(s: string): string {
    if s != "" && IsSpace(s[|s| - 1]) then TrimRight(s[..|s| - 1]) else s
  }

  function Trim(s: string): string {
    TrimRight(TrimLeft(s))
  }

  predicate Contains(s: string, pat: string) {
    pat <= s || (s != "" && Contains(s[1..], pat))
  }

  /** Leftmost, non-overlapping replacement; an empty pattern matches around every character. */
  function ReplaceAll(s: string, pat: string, rep: string): string
    decreases |s|
  {
    if pat == "" then
      if s == "" then rep else rep + [s[0]] + ReplaceAll(s[1..], pat, rep)
    else if s == "" then
      ""
    else if pat <= s then
      rep + ReplaceAll(s[|pat|..], pat, rep)
    else
      [s[0]] + ReplaceAll(s[1..], pat, rep)
  }

  lemma {:induction false} ReplaceAbsent(s: string, pat: string, rep: string)
    requires pat != "" && !Contains(s, pat)
    ensures ReplaceAll(s, pat, rep) == s
    decreases |s|
  {
    if s != "" {
      ReplaceAbsent(s[1..], pat, rep);
      assert [s[0]] + s[1..] == s;
    }
  }

  lemma {:induction false} ReplaceWhole(pat: string, rep: string)
    requires pat != ""
    ensures ReplaceAll(pat, pat, rep) == rep
  {
    assert pat[|pat|..] == "";
    assert ReplaceAll("", pat, rep) == "";
  }

  lemma {:induction false} MissingCharacter(s: string, pat: string, c: char)
    requires c in pat && c !in s
    ensures !Contains(s, pat)
    decreases |s|
  {
    assert pat <= s ==> c in s;
    if s != "" {
      MissingCharacter(s[1..], pat, c);
    }
  }

  /** A slash-free pattern never matches across a slash. */
  lemma PrefixBeforeSlash(a: string, b: string, pat: string)
    requires '/' !in pat
    ensures pat <= a + "/" + b <==> pat <= a
  {
    var s := a + "/" + b;
    assert s[|a|] == '/';
    assert |pat| > |a| ==> pat[|a|] != '/';
    if pat <= s {
      assert forall i :: 0 <= i < |pat| ==> s[i] == a[i];
      assert pat == s[..|pat|] == a[..|pat|];
    }
  }

  lemma {:induction false} ReplaceAroundSlash(a: string, b: string, pat: string, rep: string)
    requires pat != "" && '/' !in pat
    ensures ReplaceAll(a + "/" + b, pat, rep) == ReplaceAll(a, pat, rep) + "/" + ReplaceAll(b, pat, rep)
    decreases |a|
  {
    var s := a + "/" + b;
    PrefixBeforeSlash(a, b, pat);
    if a == "" {
      assert s[0] == '/' && s[1..] == b;
    } else if pat <= a {
      assert s[|pat|..] == a[|pat|..] + "/" + b;
      ReplaceAroundSlash(a[|pat|..], b, pat, rep);
    } else {
      assert s[1..] == a[1..] + "/" + b;
      ReplaceAroundSlash(a[1..], b, pat, rep);
    }
  }

  lemma {:induction false} ContainsAroundSlash(a: string, b: string, pat: string)
    requires pat != "" && '/' !in pat
    ensures Contains(a + "/" + b, pat) <==> Contains(a, pat) || Contains(b, pat)
    decreases |a|
  {
    var s := a + "/" + b;
    PrefixBeforeSlash(a, b, pat);
    if a == "" {
      assert s[1..] == b;
      assert !(pat <= "");
    } else {
      assert s[1..] == a[1..] + "/" + b;
      ContainsAroundSlash(a[1..], b, pat);
    }
  }

  lemma {:induction false} TrimLeftParts(s: string) returns (k: nat)
    ensures k <= |s| && TrimLeft(s) == s[k..] && forall i :: 0 <= i < k ==> IsSpace(s[i])
  {
    k := 0;
    if s != "" && IsSpace(s[0]) {
      k := TrimLeftParts(s[1..]);
      assert s[1..][k..] == s[k + 1..];
      assert forall i :: 1 <= i < k + 1 ==> s[i] == s[1..][i - 1];
      k := k + 1;
    }
  }

  lemma {:induction false} TrimRightParts(s: string) returns (k: nat)
    ensures k <= |s| && TrimRight(s) == s[..k] && forall i :: k <= i < |s| ==> IsSpace(s[i])
  {
    k := |s|;
    if s != "" && IsSpace(s[|s| - 1]) {
      k := TrimRightParts(s[..|s| - 1]);
      assert s[..|s| - 1][..k] == s[..k];
    }
  }

  /** Trimming takes off all spaces at both ends and nothing else. */
  lemma TrimIsExact(s: string) returns (before: string, after: string)
    ensures s == before + Trim(s) + after
    ensures forall c :: c in before + after ==> c in {' ', '\t', '\n', '\r'}
    ensures Trim(s) != "" ==> Trim(s)[0] !in {' ', '\t', '\n', '\r'} &&
                              Trim(s)[|Trim(s)| - 1] !in {' ', '\t', '\n', '\r'}
  {
    var k := TrimLeftParts(s);
    var t := s[k..];
    var l := TrimRightParts(t);
    before, after := s[..k], t[l..];
    assert s == s[..k] + t && t == t[..l] + t[l..];
    NoSpaceLeft(s);
    NoSpaceRight(t);
    if Trim(s) != "" {
      assert t != "" && Trim(s)[0] == t[0];
    }
  }

  lemma {:induction false} NoSpaceLeft(s: string)
    ensures TrimLeft(s) != "" ==> !IsSpace(TrimLeft(s)[0])
  {
    if s != "" && IsSpace(s[0]) {
      NoSpaceLeft(s[1..]);
    }
  }

  lemma {:induction false} NoSpaceRight(s: string)
    ensures TrimRight(s) != "" ==> !IsSpace(TrimRight(s)[|TrimRight(s)| - 1])
  {
    if s != "" && IsSpace(s[|s| - 1]) {
      NoSpaceRight(s[..|s| - 1]);
    }
  }
}
