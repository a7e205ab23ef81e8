/** Exactly which templates the escaper escapes rightly.

    A template may hold NUL characters and spell a sentinel, or a part of one that a saved sentinel beside it
    completes. A pass then replaces the wrong text, and no later pass mends it. */
module PromptExact {
  import opened Sequences
  import opened Options
  import opened FormatGrammar
  import opened PromptTokens
  import opened PromptEscaper
  import opened Decimals

  // ---------- collisions ----------

  /** After a NUL the template spells the rest of sentinel j: its last character is in the template, or is the
      first one of the sentinel of the next placeholder, if that, numbered i, is not restored before pass j. */
  predicate KeyTail(ts: seq<Token>, i: nat, j: nat) {
    var w := "PH\0" + Decimal(j);
    |ts| > |w| && ts[..|w|] == Chars(w) && (ts[|w|] == Ch(NUL) || (ts[|w|].Hole? && i >= j))
  }

  /** Sentinel j is met where it was not put: from a NUL of the template, or from the last character of the
      sentinel of a placeholder that is restored after pass j; i numbers the first placeholder. */
  predicate Collides(ts: seq<Token>, i: nat, j: nat) {
    ts != [] && (
      || ((ts[0] == Ch(NUL) || (ts[0].Hole? && i > j)) && KeyTail(ts[1..], NextNumber(ts[0], i), j))
      || Collides(ts[1..], NextNumber(ts[0], i), j))
  }

  /** Some sentinel that the first pass enters is also met elsewhere. */
  predicate Collision(content: string, allowed: set<string>) { !Fine(Tokens(content, allowed), 0) }

  /** No sentinel from j on is met where it was not put. */
  predicate Fine(ts: seq<Token>, j: nat) { forall k :: j <= k < |Kept(ts)| ==> !Collides(ts, 0, k) }

  lemma FineFrom(ts: seq<Token>, j: nat)
    requires j < |Kept(ts)|
    ensures Fine(ts, j) <==> !Collides(ts, 0, j) && Fine(ts, j + 1)
  {
  }

  lemma {:induction false} MixedChars(w: string, ts: seq<Token>, i: nat, j: nat)
    requires forall k :: 0 <= k < |w| ==> !IsBrace(w[k])
    ensures Mixed(Chars(w) + ts, i, j) == w + Mixed(ts, i, j)
  {
    if w == "" {
      assert Chars(w) + ts == ts;
    } else {
      var v := w[1..];
      assert w == [w[0]] + v;
      CharsCons(w[0], v);
      Associate([Ch(w[0])], Chars(v), ts);
      MixedCons(Ch(w[0]), Chars(v) + ts, i, j);
      MixedChars(v, ts, i, j);
      Associate([w[0]], v, Mixed(ts, i, j));
    }
  }

  /** Characters that are neither braces nor NUL can only come from the template. */
  lemma {:induction false} CharsOfMixed(w: string, ts: seq<Token>, i: nat, j: nat)
    requires forall k :: 0 <= k < |w| ==> !IsBrace(w[k]) && w[k] != NUL
    requires w <= Mixed(ts, i, j)
    ensures |ts| >= |w| && ts[..|w|] == Chars(w) && Mixed(ts, i, j) == w + Mixed(ts[|w|..], i, j)
  {
    if w == "" {
      assert ts[0..] == ts;
    } else {
      var v, us := w[1..], ts[1..];
      MixedHead(ts, i, j, w[0]);
      PrefixOf([w[0]], v, Mixed(us, i, j));
      assert w == [w[0]] + v;
      CharsOfMixed(v, us, i, j);
      CharsCons(w[0], v);
      FirstTokens(ts, v);
      Associate([w[0]], v, Mixed(us[|v|..], i, j));
    }
  }

  lemma FirstTokens(ts: seq<Token>, v: string)
    requires ts != [] && |ts[1..]| >= |v|
    ensures ts[..|v| + 1] == [ts[0]] + ts[1..][..|v|] && ts[|v| + 1..] == ts[1..][|v|..]
  {
  }

  lemma DigitsAreChars(d: string)
    requires Digits(d)
    ensures forall k :: 0 <= k < |d| ==> !IsBrace(d[k]) && d[k] != NUL
  {
  }

  lemma NulOfMixed(ts: seq<Token>, i: nat, j: nat)
    ensures "\0" <= Mixed(ts, i, j) <==> ts != [] && (ts[0] == Ch(NUL) || (ts[0].Hole? && i >= j))
  {
    if ts != [] {
      match ts[0] {
        case Ch(c) => assert EscapedToken(ts[0])[0] == c;
        case Hole(ph) => TextHead(ph); KeyShape(i);
      }
    }
  }

  lemma PrefixOf(a: string, b: string, s: string)
    ensures a + b <= a + s <==> b <= s
  {
    assert (a + s)[|a|..] == s;
    if a + b <= a + s {
      assert (a + b)[|a|..] == b;
    }
  }

  /** The tail is spelled in the tokens exactly when the text has it at this pass. */
  lemma KeyTailIff(ts: seq<Token>, i: nat, j: nat)
    ensures Key(j) <= [NUL] + Mixed(ts, i, j) <==> KeyTail(ts, i, j)
  {
    var d := Decimal(j);
    var m := Mixed(ts, i, j);
    DigitsAreChars(d);
    assert Key(j) == [NUL] + ("PH\0" + (d + "\0"));
    PrefixOf([NUL], "PH\0" + (d + "\0"), m);
    if "PH\0" + (d + "\0") <= m {
      TailSpelled(ts, i, j);
    }
    if KeyTail(ts, i, j) {
      var w := "PH\0" + d;
      assert ts == Chars(w) + ts[|w|..];
      MixedChars(w, ts[|w|..], i, j);
      NulOfMixed(ts[|w|..], i, j);
      PrefixOf(w, "\0", Mixed(ts[|w|..], i, j));
      Associate("PH\0", d, "\0");
    }
  }

  lemma TailSpelled(ts: seq<Token>, i: nat, j: nat)
    requires "PH\0" + (Decimal(j) + "\0") <= Mixed(ts, i, j)
    ensures KeyTail(ts, i, j)
  {
    var d, m := Decimal(j), Mixed(ts, i, j);
    DigitsAreChars(d);
    var f := d + "\0";
    assert "PH\0" + f == "PH" + ([NUL] + f);
    HeadSpelled("PH", ts, i, j, f);
    var vs := ts[2..][1..];
    DigitsSpelled(vs, i, j, d);
    TailTokens(ts, d);
  }

  lemma HeadSpelled(a: string, ts: seq<Token>, i: nat, j: nat, f: string)
    requires forall k :: 0 <= k < |a| ==> !IsBrace(a[k]) && a[k] != NUL
    requires a + ([NUL] + f) <= Mixed(ts, i, j) && f != "" && f[0] != 'P'
    ensures |ts| > |a| && ts[..|a|] == Chars(a) && ts[|a|] == Ch(NUL) && f <= Mixed(ts[|a|..][1..], i, j)
  {
    FrontOf(a, [NUL] + f, Mixed(ts, i, j));
    CharsOfMixed(a, ts, i, j);
    var us := ts[|a|..];
    PrefixOf(a, [NUL] + f, Mixed(us, i, j));
    NulSpelled(us, i, j, f);
  }

  lemma FrontOf(a: string, b: string, s: string)
    requires a + b <= s
    ensures a <= s
  {
    assert (a + b)[..|a|] == a;
  }

  lemma NulSpelled(us: seq<Token>, i: nat, j: nat, f: string)
    requires [NUL] + f <= Mixed(us, i, j) && f != "" && f[0] != 'P'
    ensures us != [] && us[0] == Ch(NUL) && f <= Mixed(us[1..], i, j)
  {
    Begins([NUL] + f, Mixed(us, i, j));
    MixedNul(us, i, j);
    PrefixOf([NUL], f, Mixed(us[1..], i, j));
  }

  lemma DigitsSpelled(vs: seq<Token>, i: nat, j: nat, d: string)
    requires d + "\0" <= Mixed(vs, i, j) && forall k :: 0 <= k < |d| ==> !IsBrace(d[k]) && d[k] != NUL
    ensures |vs| > |d| && vs[..|d|] == Chars(d) && (vs[|d|] == Ch(NUL) || (vs[|d|].Hole? && i >= j))
  {
    Begins(d + "\0", Mixed(vs, i, j));
    CharsOfMixed(d, vs, i, j);
    PrefixOf(d, "\0", Mixed(vs[|d|..], i, j));
    NulOfMixed(vs[|d|..], i, j);
  }

  lemma TailTokens(ts: seq<Token>, d: string)
    requires |ts| > 3 + |d| && ts[..2] == Chars("PH") && ts[2] == Ch(NUL) && ts[2..][1..][..|d|] == Chars(d)
    ensures ts[..|"PH\0" + d|] == Chars("PH\0" + d) && ts[2..][1..][|d|..][0] == ts[|"PH\0" + d|]
  {
    var w := "PH\0" + d;
    forall k | 0 <= k < |w| ensures ts[k] == Ch(w[k]) {
      if k < 2 {
        assert ts[k] == ts[..2][k];
      } else if k > 2 {
        assert ts[k] == ts[2..][1..][..|d|][k - 3];
      }
    }
  }

  // ---------- one pass over one token ----------

  /** A sentinel whose last character has been replaced together with what follows it. */
  function Stump(m: nat): string { "\0PH\0" + (Decimal(m) + "{") }

  /** The text shows that the token has been spoilt. */
  ghost predicate Spoilt(t: Token, s: string) {
    || (t == Ch(NUL) && "{" <= s)
    || (t.Hole? && exists m: nat :: Stump(m) <= s)
  }

  /** Sentinel j begins at the last character of the token's text. */
  predicate StrayAt(t: Token, i: nat, j: nat, s: string) {
    (t == Ch(NUL) || (t.Hole? && i > j)) && Key(j) <= [NUL] + s
  }

  lemma Begins(a: string, s: string)
    requires a <= s
    ensures s == a + s[|a|..]
  {
  }

  /** A pass restores the token, or leaves it, unless a stray sentinel begins at its end: then it is spoilt. */
  lemma TokenPass(t: Token, i: nat, j: nat, original: string, s: string)
    requires t.Hole? ==> t.ph.Valid() && (i == j ==> original == t.ph.Text())
    requires "{" <= original
    ensures var r := ReplaceAll(MixedToken(t, i, j) + s, Key(j), original);
            if StrayAt(t, i, j, s) then Spoilt(t, r) else r == MixedToken(t, i, j + 1) + ReplaceAll(s, Key(j), original)
  {
    match t {
      case Ch(c) =>
        if c != NUL {
          ReplaceSkip(EscapedToken(t), s, Key(j), original);
        } else if Key(j) <= [NUL] + s {
          Begins(Key(j), [NUL] + s);
          ReplaceHit(([NUL] + s)[|Key(j)|..], Key(j), original);
        } else {
          ReplaceMiss(NUL, s, Key(j), original);
        }
      case Hole(ph) =>
        if i < j {
          TextNulFree(ph);
          ReplaceSkip(ph.Text(), s, Key(j), original);
        } else if i == j {
          ReplaceHit(s, Key(j), original);
        } else if Key(j) <= [NUL] + s {
          KeySpoilt(i, j, original, s);
        } else {
          SkipKey(i, j, s, original);
        }
    }
  }

  /** Up to its digits a sentinel is passed over, whatever follows them if it is not the end of sentinel j. */
  lemma SkipDigits(d: string, rest: string, j: nat, original: string)
    requires Digits(d) && !(Key(j) <= "\0PH\0" + (d + rest))
    ensures ReplaceAll("\0PH\0" + (d + rest), Key(j), original) == "\0PH\0" + (d + ReplaceAll(rest, Key(j), original))
  {
    var key, u := Key(j), d + rest;
    KeyShape(j);
    DigitsAreChars(d);
    assert "\0PH\0" + u == [NUL] + ("PH" + ([NUL] + u));
    ReplaceMiss(NUL, "PH" + ([NUL] + u), key, original);
    ReplaceSkip("PH", [NUL] + u, key, original);
    assert !(key <= [NUL] + u) by { assert ([NUL] + u)[1] == d[0]; }
    ReplaceMiss(NUL, u, key, original);
    ReplaceSkip(d, rest, key, original);
    var r := d + ReplaceAll(rest, key, original);
    assert [NUL] + ("PH" + ([NUL] + r)) == "\0PH\0" + r;
  }

  lemma KeySpoilt(i: nat, j: nat, original: string, s: string)
    requires i > j && Key(j) <= [NUL] + s && "{" <= original
    ensures Stump(i) <= ReplaceAll(Key(i) + s, Key(j), original)
  {
    var d, u := Decimal(i), [NUL] + s;
    assert Key(i) + s == "\0PH\0" + (d + u);
    if Key(j) <= "\0PH\0" + (d + u) {
      KeyAtKey(i, j, s);
    }
    SkipDigits(d, u, j, original);
    Begins(Key(j), u);
    ReplaceHit(u[|Key(j)|..], Key(j), original);
    var r := ReplaceAll(u, Key(j), original);
    assert "{" <= r;
    PrefixOf(d, "{", r);
    PrefixOf("\0PH\0", d + "{", d + r);
  }

  /** A spoilt token stays spoilt. */
  lemma SpoiltStays(t: Token, j: nat, original: string, s: string)
    requires Spoilt(t, s)
    ensures Spoilt(t, ReplaceAll(s, Key(j), original))
  {
    if t == Ch(NUL) {
      Begins("{", s);
      ReplaceSkip("{", s[1..], Key(j), original);
    } else {
      var m: nat :| Stump(m) <= s;
      Begins(Stump(m), s);
      StumpStays(m, j, original, s[|Stump(m)|..]);
    }
  }

  lemma StumpStays(m: nat, j: nat, original: string, s: string)
    ensures Stump(m) <= ReplaceAll(Stump(m) + s, Key(j), original)
  {
    var d, u := Decimal(m), "{" + s;
    assert Stump(m) + s == "\0PH\0" + (d + u);
    NoKeyAtStump(d, Decimal(j), s);
    SkipDigits(d, u, j, original);
    ReplaceSkip("{", s, Key(j), original);
    var r := ReplaceAll(u, Key(j), original);
    assert "{" <= r;
    PrefixOf(d, "{", r);
    PrefixOf("\0PH\0", d + "{", d + r);
  }

  lemma NoKeyAtStump(d: string, e: string, s: string)
    requires Digits(d) && Digits(e)
    ensures !("\0PH\0" + (e + "\0") <= "\0PH\0" + (d + ("{" + s)))
  {
    PrefixOf("\0PH\0", e + "\0", d + ("{" + s));
    var t, f := d + ("{" + s), e + "\0";
    DigitsAreChars(d);
    assert t[|d|] == '{' && forall k :: 0 <= k < |d| ==> t[k] == d[k];
    assert f[|e|] == NUL && forall k :: 0 <= k < |e| ==> Digit(f[k]);
  }

  // ---------- one pass over the template ----------

  /** The text is the template after j passes up to a token that has been spoilt. */
  ghost predicate Off(ts: seq<Token>, i: nat, j: nat, s: string) {
    ts != [] && (
      || Spoilt(ts[0], s)
      || (MixedToken(ts[0], i, j) <= s && Off(ts[1..], NextNumber(ts[0], i), j, s[|MixedToken(ts[0], i, j)|..])))
  }

  lemma OffFirst(t: Token, us: seq<Token>, i: nat, j: nat, s: string)
    requires Spoilt(t, s)
    ensures Off([t] + us, i, j, s)
  {
    assert ([t] + us)[0] == t;
  }

  lemma OffCons(t: Token, ts: seq<Token>, i: nat, j: nat, s: string)
    requires ts != [] && ts[0] == t && Off(ts[1..], NextNumber(t, i), j, s)
    ensures Off(ts, i, j, MixedToken(t, i, j) + s)
  {
    assert (MixedToken(t, i, j) + s)[|MixedToken(t, i, j)|..] == s;
  }

  /** A pass does what it should, exactly unless its sentinel collides; then the text is off. */
  lemma {:induction false} PassIsRightIff(ts: seq<Token>, i: nat, j: nat, original: string)
    requires WellFormed(ts) && Numbered(ts, i, j, original) && "{" <= original
    ensures var r := ReplaceAll(Mixed(ts, i, j), Key(j), original);
            if Collides(ts, i, j) then Off(ts, i, j + 1, r) else r == Mixed(ts, i, j + 1)
    decreases |ts|
  {
    if ts != [] {
      var t, us := ts[0], ts[1..];
      assert ts == [t] + us;
      NumberedCons(t, us, i, j, original);
      PassIsRightIff(us, NextNumber(t, i), j, original);
      PassStep(t, us, i, j, original);
    }
  }

  lemma PassStep(t: Token, us: seq<Token>, i: nat, j: nat, original: string)
    requires t.Hole? ==> t.ph.Valid() && (i == j ==> original == t.ph.Text())
    requires "{" <= original
    requires var n := NextNumber(t, i);
             var r := ReplaceAll(Mixed(us, n, j), Key(j), original);
             if Collides(us, n, j) then Off(us, n, j + 1, r) else r == Mixed(us, n, j + 1)
    ensures var r := ReplaceAll(Mixed([t] + us, i, j), Key(j), original);
            if Collides([t] + us, i, j) then Off([t] + us, i, j + 1, r) else r == Mixed([t] + us, i, j + 1)
  {
    var n := NextNumber(t, i);
    var m := Mixed(us, n, j);
    MixedCons(t, us, i, j);
    MixedCons(t, us, i, j + 1);
    CollidesCons(t, us, i, j);
    KeyTailIff(us, n, j);
    TokenPass(t, i, j, original, m);
    if StrayAt(t, i, j, m) {
      OffFirst(t, us, i, j + 1, ReplaceAll(MixedToken(t, i, j) + m, Key(j), original));
    } else if Collides(us, n, j) {
      OffCons(t, [t] + us, i, j + 1, ReplaceAll(m, Key(j), original));
    }
  }

  /** Once off, always off. */
  lemma {:induction false} OffStays(ts: seq<Token>, i: nat, j: nat, original: string, s: string)
    requires WellFormed(ts) && Numbered(ts, i, j, original) && "{" <= original && Off(ts, i, j, s)
    ensures Off(ts, i, j + 1, ReplaceAll(s, Key(j), original))
    decreases |ts|
  {
    var t, us := ts[0], ts[1..];
    assert ts == [t] + us;
    if Spoilt(t, s) {
      SpoiltStays(t, j, original, s);
    } else {
      var rest := s[|MixedToken(t, i, j)|..];
      Begins(MixedToken(t, i, j), s);
      NumberedCons(t, us, i, j, original);
      OffStays(us, NextNumber(t, i), j, original, rest);
      TokenPass(t, i, j, original, rest);
      if !StrayAt(t, i, j, rest) {
        OffCons(t, ts, i, j + 1, ReplaceAll(rest, Key(j), original));
      }
    }
  }

  /** A text that is off when all placeholders are restored is not the escaped template. */
  lemma {:induction false} OffIsWrong(ts: seq<Token>, i: nat, j: nat, s: string)
    requires j >= i + |Kept(ts)| && Off(ts, i, j, s)
    ensures s != Escaped(ts)
    decreases |ts|
  {
    var t, us := ts[0], ts[1..];
    if t.Hole? { TextHead(t.ph); }
    if Spoilt(t, s) {
      assert Escaped(ts)[0] == EscapedToken(t)[0];
      assert t.Hole? ==> s[0] == NUL;
    } else {
      assert Kept(ts) == (if t.Hole? then [t.ph] else []) + Kept(us);
      OffIsWrong(us, NextNumber(t, i), j, s[|MixedToken(t, i, j)|..]);
      assert Escaped(ts)[|EscapedToken(t)|..] == Escaped(us);
    }
  }

  // ---------- all passes ----------

  lemma NumberedAt(ts: seq<Token>, j: nat)
    requires j < |Kept(ts)|
    ensures Numbered(ts, 0, j, Texts(Kept(ts))[j]) && "{" <= Texts(Kept(ts))[j]
  {
    TextHead(Kept(ts)[j]);
  }

  lemma {:induction false} RestoreOff(ts: seq<Token>, j: nat, s: string)
    requires WellFormed(ts) && j <= |Kept(ts)| && Off(ts, 0, j, s)
    ensures RestoreAll(s, Texts(Kept(ts)), j) != Escaped(ts)
    decreases |Kept(ts)| - j
  {
    if j == |Kept(ts)| {
      OffIsWrong(ts, 0, j, s);
    } else {
      var original := Texts(Kept(ts))[j];
      NumberedAt(ts, j);
      OffStays(ts, 0, j, original, s);
      RestoreOff(ts, j + 1, ReplaceAll(s, Key(j), original));
    }
  }

  lemma {:induction false} RestoreIff(ts: seq<Token>, j: nat)
    requires WellFormed(ts) && j <= |Kept(ts)|
    ensures RestoreAll(Mixed(ts, 0, j), Texts(Kept(ts)), j) == Escaped(ts) <==> Fine(ts, j)
    decreases |Kept(ts)| - j
  {
    if j == |Kept(ts)| {
      MixedAll(ts, 0, j);
    } else {
      var original := Texts(Kept(ts))[j];
      NumberedAt(ts, j);
      FineFrom(ts, j);
      PassIsRightIff(ts, 0, j, original);
      var next := ReplaceAll(Mixed(ts, 0, j), Key(j), original);
      assert RestoreAll(Mixed(ts, 0, j), Texts(Kept(ts)), j) == RestoreAll(next, Texts(Kept(ts)), j + 1);
      if Collides(ts, 0, j) {
        RestoreOff(ts, j + 1, ReplaceAll(Mixed(ts, 0, j), Key(j), original));
      } else {
        RestoreIff(ts, j + 1);
      }
    }
  }

  /** The three passes compute the one-pass escaping exactly on the templates without a collision. */
  lemma ThreePassesIff(content: string, allowed: set<string>)
    ensures ThreePasses(content, allowed) == OnePass(content, allowed) <==> !Collision(content, allowed)
  {
    TokensSound(content, allowed);
    PassesAre(content, allowed);
    RestoreIff(Tokens(content, allowed), 0);
  }

  lemma PassesAre(content: string, allowed: set<string>)
    ensures var ts := Tokens(content, allowed);
            ThreePasses(content, allowed) == RestoreAll(Mixed(ts, 0, 0), Texts(Kept(ts)), 0)
  {
    DoubleSaved(Tokens(content, allowed), 0);
  }

  // ---------- the law ----------

  /** No cut of a text into allowed placeholders and characters keeps more placeholders than the tokeniser's,
      and only that one keeps as many. */
  lemma {:induction false} TokensAreMost(us: seq<Token>, allowed: set<string>)
    requires WellFormed(us) && Within(us, allowed)
    ensures var ts := Tokens(Flatten(us), allowed);
            |Kept(us)| <= |Kept(ts)| && (|Kept(us)| == |Kept(ts)| ==> us == ts)
    decreases |us|
  {
    if us != [] {
      var t, vs := us[0], us[1..];
      var s := Flatten(vs);
      assert us == [t] + vs;
      TokensAreMost(vs, allowed);
      FlattenCons(t, vs);
      FlattenCons(t, Tokens(s, allowed));
      match t {
        case Hole(ph) =>
          PlaceholderComplete(ph, s);
          TextHead(ph);
        case Ch(c) =>
          MoreWithHole(c, s, allowed);
      }
    }
  }

  /** A character in front of a text is cut off as such, or begins one placeholder more. */
  lemma MoreWithHole(c: char, s: string, allowed: set<string>)
    ensures var ts := Tokens([c] + s, allowed);
            ts == [Ch(c)] + Tokens(s, allowed) || |Kept(ts)| == 1 + |Kept(Tokens(s, allowed))|
  {
    if c != '{' {
      TokensPlain(c, s, allowed);
    } else {
      var m := MatchPlaceholder("{" + s);
      if m.Matched? && m.ph.name in allowed {
        var p := m.ph.Inner() + "}";
        TailOfMatch(m.ph, m.rest);
        assert s == p + m.rest by { assert ("{" + s)[1..] == s && ("{" + (p + m.rest))[1..] == p + m.rest; }
        NoOpeningBrace(p, m.rest, allowed);
        SavedChars(p, Tokens(m.rest, allowed), 0);
        FlattenCons(Hole(m.ph), Tokens(m.rest, allowed));
      } else {
        TokensBrace(s, allowed);
      }
    }
  }

  /** The law of the escaper, for all content: its output parses, spells the content, and shows exactly the
      allowed placeholders in order, if and only if the content has no collision. */
  lemma EscapeLawIff(content: string, allowed: set<string>)
    ensures ParsesTo(ThreePasses(content, allowed), content, FieldsOf(Kept(Tokens(content, allowed)))) <==>
            !Collision(content, allowed)
  {
    var ts := Tokens(content, allowed);
    var s := ThreePasses(content, allowed);
    TokensSound(content, allowed);
    ThreePassesIff(content, allowed);
    EscapedParsesBack(ts);
    if ParsesTo(s, content, FieldsOf(Kept(ts))) {
      ThreePassesForm(content, allowed);
      var us :| WellFormed(us) && Within(us, allowed) && s == Escaped(us);
      EscapedParsesBack(us);
      TokensAreMost(us, allowed);
    }
  }

  // ---------- doubled braces ----------

  lemma {:induction false} DoubledFront(us: seq<Token>, w: string)
    requires forall k :: 0 <= k < |w| ==> !IsBrace(w[k])
    ensures var es := EscapedTokens(us);
            && (|us| > |w| && us[..|w|] == Chars(w) <==> |es| > |w| && es[..|w|] == Chars(w))
            && (|us| > |w| && us[..|w|] == Chars(w) ==> es[|w|] == us[|w|])
  {
    var es := EscapedTokens(us);
    if us != [] && w != "" {
      var v, vs := w[1..], us[1..];
      DoubledFront(vs, v);
      FrontIff(us, w);
      if us[0] == Ch(w[0]) {
        assert es == [us[0]] + EscapedTokens(vs);
        assert es[1..] == EscapedTokens(vs);
      }
      FrontIff(es, w);
    }
  }

  lemma FrontIff(us: seq<Token>, w: string)
    requires us != [] && w != ""
    ensures |us| > |w| && us[..|w|] == Chars(w) <==>
            us[0] == Ch(w[0]) && |us[1..]| > |w[1..]| && us[1..][..|w[1..]|] == Chars(w[1..])
  {
    var n := |w| - 1;
    assert w == [w[0]] + w[1..];
    CharsCons(w[0], w[1..]);
    if |us| > |w| {
      assert us[..|w|] == [us[0]] + us[1..][..n];
      if us[..|w|] == Chars(w) {
        assert us[..|w|][1..] == us[1..][..n] && Chars(w)[1..] == Chars(w[1..]);
      }
    }
  }

  lemma DoubledTail(us: seq<Token>, i: nat, j: nat)
    ensures KeyTail(EscapedTokens(us), i, j) <==> KeyTail(us, i, j)
  {
    DigitsAreChars(Decimal(j));
    DoubledFront(us, "PH\0" + Decimal(j));
  }

  lemma CollidesCons(t: Token, us: seq<Token>, i: nat, j: nat)
    ensures Collides([t] + us, i, j) <==>
            || ((t == Ch(NUL) || (t.Hole? && i > j)) && KeyTail(us, NextNumber(t, i), j))
            || Collides(us, NextNumber(t, i), j)
  {
    assert ([t] + us)[0] == t && ([t] + us)[1..] == us;
  }

  lemma BraceCollides(t: Token, us: seq<Token>, i: nat, j: nat)
    requires t.Ch? && IsBrace(t.c)
    ensures Collides([t] + us, i, j) <==> Collides(us, i, j)
  {
    CollidesCons(t, us, i, j);
  }

  lemma DoubledCons(t: Token, us: seq<Token>)
    ensures EscapedTokens([t] + us) ==
            if t.Ch? && IsBrace(t.c) then [t] + ([t] + EscapedTokens(us)) else [t] + EscapedTokens(us)
  {
    assert ([t] + us)[0] == t && ([t] + us)[1..] == us;
    if t.Ch? && IsBrace(t.c) {
      assert [t, t] == [t] + [t];
      Associate([t], [t], EscapedTokens(us));
    }
  }

  lemma DoubledStep(t: Token, us: seq<Token>, i: nat, j: nat)
    requires !(t.Ch? && IsBrace(t.c))
    requires Collides(EscapedTokens(us), NextNumber(t, i), j) <==> Collides(us, NextNumber(t, i), j)
    ensures Collides([t] + EscapedTokens(us), i, j) <==> Collides([t] + us, i, j)
  {
    CollidesCons(t, us, i, j);
    CollidesCons(t, EscapedTokens(us), i, j);
    DoubledTail(us, NextNumber(t, i), j);
  }

  /** Doubling the literal braces neither makes nor removes a collision. */
  lemma {:induction false} DoubledCollides(ts: seq<Token>, i: nat, j: nat)
    ensures Collides(EscapedTokens(ts), i, j) <==> Collides(ts, i, j)
  {
    if ts != [] {
      var t, us := ts[0], ts[1..];
      assert ts == [t] + us;
      DoubledCons(t, us);
      DoubledCollides(us, NextNumber(t, i), j);
      if t.Ch? && IsBrace(t.c) {
        BraceCollides(t, us, i, j);
        BraceCollides(t, EscapedTokens(us), i, j);
        BraceCollides(t, [t] + EscapedTokens(us), i, j);
      } else {
        DoubledStep(t, us, i, j);
      }
    }
  }

  /** Escaped content has a collision exactly when the content has one. */
  lemma EscapedCollisionIff(content: string, allowed: set<string>)
    ensures Collision(Escaped(Tokens(content, allowed)), allowed) <==> Collision(content, allowed)
  {
    var ts := Tokens(content, allowed);
    TokensOfEscaped(content, allowed);
    EscapedTokensShape(ts);
    forall k | 0 <= k < |Kept(ts)| ensures Collides(EscapedTokens(ts), 0, k) <==> Collides(ts, 0, k) {
      DoubledCollides(ts, 0, k);
    }
  }

  // ---------- contents without collision ----------

  /** Content without a piece of a sentinel has no collision, and neither has content without placeholders. */
  lemma NoCollision(content: string, allowed: set<string>)
    requires SentinelFree(content) || Kept(Tokens(content, allowed)) == []
    ensures !Collision(content, allowed)
  {
    if SentinelFree(content) {
      ThreePassesIsOnePass(content, allowed);
      ThreePassesIff(content, allowed);
    }
  }

  /** Content that spells the sentinel of a kept placeholder in full collides, so it is escaped wrongly. */
  lemma SpelledCollides(before: string, j: nat, after: string, allowed: set<string>)
    requires forall k :: 0 <= k < |before| ==> before[k] != '{'
    requires j < |Kept(Tokens(after, allowed))|
    ensures Collision(before + (Key(j) + after), allowed)
    ensures ThreePasses(before + (Key(j) + after), allowed) != OnePass(before + (Key(j) + after), allowed)
  {
    var ts := Tokens(after, allowed);
    KeyShape(j);
    NoOpeningBrace(before, Key(j) + after, allowed);
    NoOpeningBrace(Key(j), after, allowed);
    SavedChars(Key(j), ts, 0);
    SavedChars(before, Chars(Key(j)) + ts, 0);
    KeyCollides(j, ts);
    CollidesBehind(before, Chars(Key(j)) + ts, j);
    ThreePassesIff(before + (Key(j) + after), allowed);
  }

  lemma KeyCollides(j: nat, ts: seq<Token>)
    ensures Collides(Chars(Key(j)) + ts, 0, j)
  {
    var w := "PH\0" + Decimal(j);
    var us := Chars(Key(j)) + ts;
    assert Key(j) == [NUL] + (w + "\0");
    assert us[0] == Ch(NUL);
    assert us[1..][..|w|] == Chars(w);
    assert us[1..][|w|] == Ch(NUL);
  }

  lemma {:induction false} CollidesBehind(p: string, ts: seq<Token>, j: nat)
    requires Collides(ts, 0, j)
    ensures Collides(Chars(p) + ts, 0, j)
  {
    if p == "" {
      assert Chars(p) + ts == ts;
    } else {
      var us := Chars(p) + ts;
      CollidesBehind(p[1..], ts, j);
      assert us[1..] == Chars(p[1..]) + ts && us[0] == Ch(p[0]);
    }
  }
}
