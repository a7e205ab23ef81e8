/** Text helpers shared by the models: white space, clipping, and cutting at separators. */
module Texts {
  import opened Options

  /** The characters `str.strip` removes. */
  predicate IsSpace(c: char) {
    var n := c as int;
    9 <= n <= 13 || 28 <= n <= 32 || n == 0x85 || n == 0xA0 || n == 0x1680 || 0x2000 <= n <= 0x200A
    || n == 0x2028 || n == 0x2029 || n == 0x202F || n == 0x205F || n == 0x3000
  }

  predicate Blank(s: string) { forall i :: 0 <= i < |s| ==> IsSpace(s[i]) }

  function StripLeft(s: string): string {
    if s == "" || !IsSpace(s[0]) then s else StripLeft(s[1..])
  }

  function StripRight(s: string): string {
    if s == "" || !IsSpace(s[|s| - 1]) then s else StripRight(s[..|s| - 1])
  }

  /** `str.strip` */
  function Strip(s: string): string { StripRight(StripLeft(s)) }

  /** The first n characters, or all of them. */
  function Take(s: string, n: nat): string {
    if |s| <= n then s else s[..n]
  }

  lemma {:induction false} StripRightEnds(s: string)
    ensures StripRight(s) <= s
    ensures StripRight(s) != "" ==> !IsSpace(StripRight(s)[|StripRight(s)| - 1])
  {
    if s != "" && IsSpace(s[|s| - 1]) {
      StripRightEnds(s[..|s| - 1]);
    }
  }

  lemma {:induction false} StripLeftStarts(s: string)
    ensures StripLeft(s) != "" ==> !IsSpace(StripLeft(s)[0])
  {
    if s != "" && IsSpace(s[0]) {
      StripLeftStarts(s[1..]);
    }
  }

  /** Stripped text has no white space at its ends. */
  lemma StripEnds(s: string)
    ensures var t := Strip(s); t != "" ==> !IsSpace(t[0]) && !IsSpace(t[|t| - 1])
  {
    StripLeftStarts(s);
    StripRightEnds(StripLeft(s));
  }

  /** t is the part of s from i to j, and there is white space on both sides of it but none at its ends. */
  predicate StripsAt(s: string, t: string, i: nat, j: nat) {
    && i <= j <= |s| && s[i..j] == t && Blank(s[..i]) && Blank(s[j..])
    && (t != "" ==> !IsSpace(t[0]) && !IsSpace(t[|t| - 1]))
  }

  ghost predicate IsStripped(s: string, t: string) { exists i: nat, j: nat :: StripsAt(s, t, i, j) }

  lemma {:induction false} StripLeftAt(s: string) returns (i: nat)
    ensures i <= |s| && StripLeft(s) == s[i..] && Blank(s[..i])
  {
    if s == "" || !IsSpace(s[0]) {
      i := 0;
    } else {
      i := StripLeftAt(s[1..]);
      i := i + 1;
      assert s[..i] == [s[0]] + s[1..][..i - 1];
    }
  }

  lemma {:induction false} StripRightAt(s: string) returns (j: nat)
    ensures j <= |s| && StripRight(s) == s[..j] && Blank(s[j..])
  {
    if s == "" || !IsSpace(s[|s| - 1]) {
      j := |s|;
    } else {
      var u := s[..|s| - 1];
      j := StripRightAt(u);
      assert s[j..] == u[j..] + [s[|s| - 1]] && u[..j] == s[..j];
    }
  }

  lemma StripAt(s: string) returns (i: nat, j: nat)
    ensures StripsAt(s, Strip(s), i, j)
  {
    i := StripLeftAt(s);
    j := StripRightAt(s[i..]);
    StripEnds(s);
    assert s[i..][..j] == s[i..i + j] && s[i..][j..] == s[i + j..];
    j := i + j;
  }

  lemma StartsAlike(s: string, t: string, i: nat, j: nat, t': string, i': nat, j': nat)
    requires StripsAt(s, t, i, j) && StripsAt(s, t', i', j') && i < j
    ensures i' <= i && j <= j'
  {
    assert t[0] == s[i] && t[|t| - 1] == s[j - 1];
    assert forall k :: 0 <= k < i' ==> IsSpace(s[..i'][k]) && s[..i'][k] == s[k];
    assert forall k :: j' <= k < |s| ==> IsSpace(s[j'..][k - j']) && s[j'..][k - j'] == s[k];
  }

  lemma OnePart(s: string, t: string, i: nat, j: nat, t': string, i': nat, j': nat)
    requires StripsAt(s, t, i, j) && StripsAt(s, t', i', j')
    ensures t == t'
  {
    if i < j {
      StartsAlike(s, t, i, j, t', i', j');
    }
    if i' < j' {
      StartsAlike(s, t', i', j', t, i, j);
    }
  }

  /** Stripping gives the one part between white space. */
  lemma StripIff(s: string, t: string)
    ensures Strip(s) == t <==> IsStripped(s, t)
  {
    var i, j := StripAt(s);
    if IsStripped(s, t) {
      var i': nat, j': nat :| StripsAt(s, t, i', j');
      OnePart(s, Strip(s), i, j, t, i', j');
    }
  }

  // ---------- cutting ----------

  /** r is v cut to n characters. */
  predicate CutTo(v: string, n: nat, r: string) { r <= v && |r| == if |v| < n then |v| else n }

  predicate CutToOption(v: Option<string>, n: nat, r: Option<string>) {
    (v.Some? <==> r.Some?) && (v.Some? ==> CutTo(v.value, n, r.value))
  }

  lemma TakeCuts(v: string, n: nat)
    ensures CutTo(v, n, Take(v, n))
  {
  }

  lemma OneCut(v: string, n: nat, r: string)
    requires CutTo(v, n, r)
    ensures r == Take(v, n)
  {
  }

  predicate ColonFree(s: string) { forall i :: 0 <= i < |s| ==> s[i] != ':' }

  /** The part before the first colon is determined by the text. */
  lemma CutFirst(a: string, b: string, s: string, t: string)
    requires ColonFree(a) && ColonFree(b) && a + (":" + s) == b + (":" + t)
    ensures a == b && s == t
  {
    var u := a + (":" + s);
    assert u[|a|] == ':' && u[|b|] == ':';
    assert forall i :: 0 <= i < |a| ==> u[i] == a[i];
    assert forall i :: 0 <= i < |b| ==> u[i] == b[i];
    assert |a| == |b|;
    assert u[..|a|] == a && u[..|b|] == b;
    assert u[|a| + 1..] == s && u[|b| + 1..] == t;
  }

  /** The part after the last colon is determined by the text. */
  lemma CutLast(a: string, b: string, s: string, t: string)
    requires ColonFree(s) && ColonFree(t) && a + (":" + s) == b + (":" + t)
    ensures a == b && s == t
  {
    var u := a + (":" + s);
    assert u[|a|] == ':' && u[|b|] == ':';
    assert forall i :: |a| < i < |u| ==> u[i] == s[i - |a| - 1];
    assert forall i :: |b| < i < |u| ==> u[i] == t[i - |b| - 1];
    assert |a| == |b|;
    assert u[..|a|] == a && u[..|b|] == b;
    assert u[|a| + 1..] == s && u[|b| + 1..] == t;
  }
}
