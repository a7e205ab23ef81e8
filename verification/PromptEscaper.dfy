/** The three passes of the escaper: allowed placeholders become numbered sentinels, every remaining
    brace is doubled, and the sentinels are replaced by the placeholders again. */
module PromptEscaper {
  import opened Sequences
  import opened Options
  import opened FormatGrammar
  import opened PromptTokens
  import opened Decimals

  const NUL: char := '\0'

  /** The sentinel of the k-th placeholder. */
  function Key(k: nat): (key: string)
    ensures key != "" && key[0] == NUL
  {
    "\0PH\0" + (Decimal(k) + "\0")
  }

  lemma KeyShape(k: nat)
    ensures var key := Key(k);
            |key| >= 6 && key[1] == 'P' && key[2] == 'H' && key[3] == NUL && Digit(key[4])
            && forall i :: 0 <= i < |key| ==> !IsBrace(key[i])
  {
    var key := Key(k);
    assert forall i :: 4 <= i < |key| ==> key[i] == (Decimal(k) + "\0")[i - 4];
  }

  /** `str.replace`: every occurrence, left to right, without overlap. */
  function ReplaceAll(s: string, pat: string, sub: string): string
    requires pat != ""
    decreases |s|
  {
    if s == "" then ""
    else if pat <= s then sub + ReplaceAll(s[|pat|..], pat, sub)
    else [s[0]] + ReplaceAll(s[1..], pat, sub)
  }

  function DoubleBraces(s: string): string {
    ReplaceAll(ReplaceAll(s, "{", "{{"), "}", "}}")
  }

  /** The template after the first pass, its placeholders numbered from k. */
  function Saved(ts: seq<Token>, k: nat): string {
    if ts == [] then ""
    else match ts[0]
      case Ch(c) => [c] + Saved(ts[1..], k)
      case Hole(ph) => Key(k) + Saved(ts[1..], k + 1)
  }

  /** Sentinels k, k+1, ... replaced by the given texts, one after the other. */
  function RestoreAll(s: string, originals: seq<string>, k: nat): string
    requires k <= |originals|
    decreases |originals| - k
  {
    if k == |originals| then s
    else RestoreAll(ReplaceAll(s, Key(k), originals[k]), originals, k + 1)
  }

  function Texts(phs: seq<Placeholder>): (ts: seq<string>)
    ensures |ts| == |phs|
    ensures forall i :: 0 <= i < |phs| ==> ts[i] == phs[i].Text()
  {
    seq(|phs|, i requires 0 <= i < |phs| => phs[i].Text())
  }

  /** What the three passes compute. */
  function ThreePasses(content: string, allowed: set<string>): string {
    var ts := Tokens(content, allowed);
    RestoreAll(DoubleBraces(Saved(ts, 0)), Texts(Kept(ts)), 0)
  }

  /** What the escaper is for: braces outside allowed placeholders doubled, in one pass. */
  function OnePass(content: string, allowed: set<string>): string {
    Escaped(Tokens(content, allowed))
  }

  /** No `PH` followed by a NUL character.  Text without NUL characters is such text. */
  predicate SentinelFree(s: string) {
    forall i :: 0 <= i && i + 3 <= |s| ==> !(s[i] == 'P' && s[i + 1] == 'H' && s[i + 2] == NUL)
  }

  lemma NulFreeIsSentinelFree(s: string)
    requires forall i :: 0 <= i < |s| ==> s[i] != NUL
    ensures SentinelFree(s)
  {
  }

  // ---------- replacing ----------

  lemma {:induction false} ReplaceSkip(p: string, s: string, pat: string, sub: string)
    requires pat != "" && forall i :: 0 <= i < |p| ==> p[i] != pat[0]
    ensures ReplaceAll(p + s, pat, sub) == p + ReplaceAll(s, pat, sub)
  {
    if p == "" {
      assert p + s == s;
    } else {
      var q := p[1..];
      assert p == [p[0]] + q;
      Associate([p[0]], q, s);
      Halves([p[0]], q + s);
      ReplaceSkip(q, s, pat, sub);
      Associate([p[0]], q, ReplaceAll(s, pat, sub));
    }
  }

  lemma ReplaceMiss(c: char, s: string, pat: string, sub: string)
    requires pat != "" && !(pat <= [c] + s)
    ensures ReplaceAll([c] + s, pat, sub) == [c] + ReplaceAll(s, pat, sub)
  {
    Halves([c], s);
  }

  lemma ReplaceHit(s: string, pat: string, sub: string)
    requires pat != ""
    ensures ReplaceAll(pat + s, pat, sub) == sub + ReplaceAll(s, pat, sub)
  {
    Halves(pat, s);
  }

  lemma ReplaceNone(p: string, pat: string, sub: string)
    requires pat != "" && forall i :: 0 <= i < |p| ==> p[i] != pat[0]
    ensures ReplaceAll(p, pat, sub) == p
  {
    ReplaceSkip(p, "", pat, sub);
    assert p + "" == p;
  }

  // ---------- first two passes ----------

  /** The text of the first token within `Mixed`, and the number of the next placeholder. */
  function MixedToken(t: Token, i: nat, j: nat): string {
    if t.Hole? && i >= j then Key(i) else EscapedToken(t)
  }

  function NextNumber(t: Token, i: nat): nat { if t.Hole? then i + 1 else i }

  /** The template with placeholders below j restored and the others still sentinels; i is the
      number of its first placeholder. */
  function Mixed(ts: seq<Token>, i: nat, j: nat): string {
    if ts == [] then "" else MixedToken(ts[0], i, j) + Mixed(ts[1..], NextNumber(ts[0], i), j)
  }

  /** A character of the template, doubled if it is a brace. */
  lemma DoubleChar(c: char, s: string)
    ensures DoubleBraces([c] + s) == EscapedToken(Ch(c)) + DoubleBraces(s)
  {
    var t := ReplaceAll(s, "{", "{{");
    if c == '{' {
      ReplaceHit(s, "{", "{{");
      ReplaceSkip("{{", t, "}", "}}");
    } else if c == '}' {
      ReplaceSkip("}", s, "{", "{{");
      ReplaceHit(t, "}", "}}");
    } else {
      ReplaceSkip([c], s, "{", "{{");
      ReplaceSkip([c], t, "}", "}}");
    }
  }

  lemma {:induction false} DoubleSaved(ts: seq<Token>, k: nat)
    ensures DoubleBraces(Saved(ts, k)) == Mixed(ts, k, 0)
  {
    if ts != [] {
      match ts[0] {
        case Ch(c) =>
          DoubleSaved(ts[1..], k);
          DoubleChar(c, Saved(ts[1..], k));
        case Hole(ph) =>
          DoubleSaved(ts[1..], k + 1);
          KeyShape(k);
          ReplaceSkip(Key(k), Saved(ts[1..], k + 1), "{", "{{");
          ReplaceSkip(Key(k), ReplaceAll(Saved(ts[1..], k + 1), "{", "{{"), "}", "}}");
      }
    }
  }

  lemma {:induction false} MixedAll(ts: seq<Token>, i: nat, j: nat)
    requires j >= i + |Kept(ts)|
    ensures Mixed(ts, i, j) == Escaped(ts)
  {
    if ts != [] {
      match ts[0] {
        case Ch(c) => MixedAll(ts[1..], i, j);
        case Hole(ph) => MixedAll(ts[1..], i + 1, j);
      }
    }
  }

  // ---------- sentinels are met only where they were put ----------

  lemma {:induction false} TerminatedDigits(a: string, b: string, s: string)
    requires forall i :: 0 <= i < |a| ==> Digit(a[i])
    requires forall i :: 0 <= i < |b| ==> Digit(b[i])
    requires a + "\0" <= b + ("\0" + s)
    ensures a == b
  {
    var t := b + ("\0" + s);
    assert (a + "\0")[|a|] == NUL == t[|a|];
    assert forall i :: 0 <= i < |a| ==> t[i] == a[i];
    assert t[|b|] == NUL;
    assert |a| == |b|;
  }

  /** Sentinel j starts at sentinel i only if they are the same. */
  lemma KeyAtKey(i: nat, j: nat, s: string)
    requires Key(j) <= Key(i) + s
    ensures i == j
  {
    var a, b := Decimal(j), Decimal(i);
    Associate("\0PH\0", b + "\0", s);
    Associate(b, "\0", s);
    Halves("\0PH\0", a + "\0");
    Halves("\0PH\0", b + ("\0" + s));
    assert a + "\0" <= b + ("\0" + s) by {
      assert Key(j)[4..] == a + "\0";
      assert (Key(i) + s)[4..] == b + ("\0" + s);
    }
    TerminatedDigits(a, b, s);
    DecimalValueOf(i);
    DecimalValueOf(j);
  }

  lemma TextHead(ph: Placeholder)
    ensures ph.Text() != "" && ph.Text()[0] == '{'
  {
  }

  lemma SentinelAtFront(s: string)
    ensures !SentinelFree("P" + ("H" + ("\0" + s)))
  {
    var t := "P" + ("H" + ("\0" + s));
    assert t[0] == 'P' && t[1] == 'H' && t[2] == NUL;
  }

  lemma MixedHead(ts: seq<Token>, i: nat, j: nat, c: char)
    requires c != NUL && !IsBrace(c)
    requires Mixed(ts, i, j) != "" && Mixed(ts, i, j)[0] == c
    ensures ts != [] && ts[0] == Ch(c) && Mixed(ts, i, j) == [c] + Mixed(ts[1..], i, j)
    ensures Flatten(ts) == [c] + Flatten(ts[1..])
  {
    match ts[0] {
      case Ch(d) => assert EscapedToken(ts[0])[0] == d;
      case Hole(ph) => TextHead(ph); KeyShape(i);
    }
  }

  lemma MixedNul(ts: seq<Token>, i: nat, j: nat)
    requires |Mixed(ts, i, j)| > 1 && Mixed(ts, i, j)[0] == NUL && Mixed(ts, i, j)[1] != 'P'
    ensures ts != [] && ts[0] == Ch(NUL) && Flatten(ts) == [NUL] + Flatten(ts[1..])
  {
    match ts[0] {
      case Ch(d) => assert EscapedToken(ts[0])[0] == d;
      case Hole(ph) => TextHead(ph); KeyShape(i);
    }
  }

  /** No sentinel begins at a NUL of the template or at the last character of another sentinel. */
  lemma NoKeyAfterNul(ts: seq<Token>, i: nat, j: nat)
    requires SentinelFree(Flatten(ts))
    ensures !(Key(j) <= [NUL] + Mixed(ts, i, j))
  {
    if Key(j) <= [NUL] + Mixed(ts, i, j) {
      KeyShape(j);
      var m := Mixed(ts, i, j);
      assert forall k :: 1 <= k < 6 ==> ([NUL] + m)[k] == m[k - 1] == Key(j)[k];
      MixedHead(ts, i, j, 'P');
      var m1 := Mixed(ts[1..], i, j);
      assert m1[0] == m[1] && m1[1] == m[2] && m1[2] == m[3];
      MixedHead(ts[1..], i, j, 'H');
      var us := ts[1..][1..];
      var m2 := Mixed(us, i, j);
      assert m2[0] == m1[1] && m2[1] == m1[2];
      MixedNul(us, i, j);
      SentinelAtFront(Flatten(us[1..]));
    }
  }

  /** Another sentinel is passed over whole. */
  lemma SkipKey(i: nat, j: nat, s: string, sub: string)
    requires i != j && !(Key(j) <= [NUL] + s)
    ensures ReplaceAll(Key(i) + s, Key(j), sub) == Key(i) + ReplaceAll(s, Key(j), sub)
  {
    var key, d := Key(j), Decimal(i);
    var u := [NUL] + s;
    if key <= Key(i) + s { KeyAtKey(i, j, s); }
    KeyShape(j);
    KeyParts(d, s);
    ReplaceMiss(NUL, s, key, sub);
    KeyParts(d, ReplaceAll(s, key, sub));
    SkipNumber(d, u, key, sub);
    var v := [NUL] + (d + u);
    ReplaceSkip("PH", v, key, sub);
    ReplaceMiss(NUL, "PH" + v, key, sub);
  }

  lemma KeyParts(d: string, s: string)
    ensures ("\0PH\0" + (d + "\0")) + s == [NUL] + ("PH" + ([NUL] + (d + ([NUL] + s))))
  {
    Associate("\0PH\0", d + "\0", s);
    Associate(d, "\0", s);
    var u := d + ([NUL] + s);
    assert "\0PH\0" + u == [NUL] + ("PH" + ([NUL] + u));
  }

  lemma SkipNumber(d: string, u: string, key: string, sub: string)
    requires d != "" && |key| > 1 && key[1] != d[0] && forall k :: 0 <= k < |d| ==> d[k] != key[0]
    ensures ReplaceAll([NUL] + (d + u), key, sub) == [NUL] + (d + ReplaceAll(u, key, sub))
  {
    var v := d + u;
    assert ([NUL] + v)[1] == v[0] == d[0];
    ReplaceMiss(NUL, v, key, sub);
    ReplaceSkip(d, u, key, sub);
  }

  lemma TextNulFree(ph: Placeholder)
    requires ph.Valid()
    ensures forall i :: 0 <= i < |ph.Text()| ==> ph.Text()[i] != NUL
  {
    InnerChars(ph);
  }

  lemma SentinelFreeTail(t: Token, ts: seq<Token>)
    requires SentinelFree(TokenText(t) + Flatten(ts))
    ensures SentinelFree(Flatten(ts))
  {
    var f, h := TokenText(t) + Flatten(ts), |TokenText(t)|;
    assert forall i :: 0 <= i < |Flatten(ts)| ==> f[i + h] == Flatten(ts)[i];
  }

  lemma RestoreHole(ph: Placeholder, m: string, us: seq<Token>, i: nat, j: nat, original: string)
    requires ph.Valid() && SentinelFree(Flatten(us)) && m == Mixed(us, i + 1, j)
    requires i == j ==> original == ph.Text()
    ensures ReplaceAll((if i < j then ph.Text() else Key(i)) + m, Key(j), original)
         == (if i < j + 1 then ph.Text() else Key(i)) + ReplaceAll(m, Key(j), original)
  {
    if i < j {
      TextNulFree(ph);
      ReplaceSkip(ph.Text(), m, Key(j), original);
    } else if i == j {
      ReplaceHit(m, Key(j), original);
    } else {
      NoKeyAfterNul(us, i + 1, j);
      SkipKey(i, j, m, original);
    }
  }

  lemma RestoreChar(c: char, m: string, us: seq<Token>, i: nat, j: nat, original: string)
    requires SentinelFree(Flatten(us)) && m == Mixed(us, i, j)
    ensures ReplaceAll(EscapedToken(Ch(c)) + m, Key(j), original)
         == EscapedToken(Ch(c)) + ReplaceAll(m, Key(j), original)
  {
    if c == NUL {
      NoKeyAfterNul(us, i, j);
      ReplaceMiss(NUL, m, Key(j), original);
    } else {
      ReplaceSkip(EscapedToken(Ch(c)), m, Key(j), original);
    }
  }

  lemma RestoreToken(t: Token, us: seq<Token>, i: nat, j: nat, original: string)
    requires SentinelFree(Flatten(us))
    requires t.Hole? ==> t.ph.Valid() && (i == j ==> original == t.ph.Text())
    ensures var m := Mixed(us, NextNumber(t, i), j);
            ReplaceAll(MixedToken(t, i, j) + m, Key(j), original)
            == MixedToken(t, i, j + 1) + ReplaceAll(m, Key(j), original)
  {
    var m := Mixed(us, NextNumber(t, i), j);
    match t {
      case Ch(c) => RestoreChar(c, m, us, i, j, original);
      case Hole(ph) => RestoreHole(ph, m, us, i, j, original);
    }
  }

  lemma MixedCons(t: Token, us: seq<Token>, i: nat, j: nat)
    ensures Mixed([t] + us, i, j) == MixedToken(t, i, j) + Mixed(us, NextNumber(t, i), j)
  {
    assert ([t] + us)[1..] == us;
  }

  /** Counting the placeholders from i on, the one with number j, if there is one, has the text `original`. */
  ghost predicate Numbered(ts: seq<Token>, i: nat, j: nat, original: string) {
    i <= j < i + |Kept(ts)| ==> original == Kept(ts)[j - i].Text()
  }

  lemma NumberedCons(t: Token, us: seq<Token>, i: nat, j: nat, original: string)
    requires Numbered([t] + us, i, j, original)
    ensures Numbered(us, NextNumber(t, i), j, original)
    ensures t.Hole? && i == j ==> original == t.ph.Text()
  {
    assert ([t] + us)[1..] == us;
    assert Kept([t] + us) == (if t.Hole? then [t.ph] else []) + Kept(us);
  }

  /** Restoring sentinel j restores placeholder j and nothing else. */
  lemma {:induction false} RestoreOne(ts: seq<Token>, i: nat, j: nat, original: string)
    requires WellFormed(ts) && SentinelFree(Flatten(ts)) && Numbered(ts, i, j, original)
    ensures ReplaceAll(Mixed(ts, i, j), Key(j), original) == Mixed(ts, i, j + 1)
    decreases |ts|
  {
    if ts == [] {
    } else {
      var t, us := ts[0], ts[1..];
      assert ts == [t] + us;
      FlattenCons(t, us);
      SentinelFreeTail(t, us);
      NumberedCons(t, us, i, j, original);
      RestoreOne(us, NextNumber(t, i), j, original);
      RestoreToken(t, us, i, j, original);
      MixedCons(t, us, i, j);
      MixedCons(t, us, i, j + 1);
    }
  }

  lemma {:induction false} RestoreRest(ts: seq<Token>, j: nat)
    requires WellFormed(ts) && SentinelFree(Flatten(ts)) && j <= |Kept(ts)|
    ensures RestoreAll(Mixed(ts, 0, j), Texts(Kept(ts)), j) == Escaped(ts)
    decreases |Kept(ts)| - j
  {
    if j == |Kept(ts)| {
      MixedAll(ts, 0, j);
    } else {
      RestoreOne(ts, 0, j, Texts(Kept(ts))[j]);
      RestoreRest(ts, j + 1);
    }
  }

  /** The three passes compute the one-pass escaping. */
  lemma ThreePassesIsOnePass(content: string, allowed: set<string>)
    requires SentinelFree(content)
    ensures ThreePasses(content, allowed) == OnePass(content, allowed)
  {
    var ts := Tokens(content, allowed);
    TokensSound(content, allowed);
    DoubleSaved(ts, 0);
    RestoreRest(ts, 0);
  }

  /** The law of the escaper: its output parses, spells the content, and shows exactly the allowed
      placeholders of the content in order. */
  lemma EscapeRoundTrip(content: string, allowed: set<string>)
    requires SentinelFree(content)
    ensures ParsesTo(ThreePasses(content, allowed), content, FieldsOf(Kept(Tokens(content, allowed))))
  {
    ThreePassesIsOnePass(content, allowed);
    TokensSound(content, allowed);
    EscapedParsesBack(Tokens(content, allowed));
  }

  // ---------- all content, sentinels in it or not ----------

  /** s is the escaped form of some template whose placeholders are all allowed. */
  ghost predicate EscapedForm(s: string, allowed: set<string>) {
    exists ts :: WellFormed(ts) && Within(ts, allowed) && s == Escaped(ts)
  }

  lemma EscapedFormCons(t: Token, s: string, allowed: set<string>)
    requires EscapedForm(s, allowed)
    requires t.Hole? ==> t.ph.Valid() && t.ph.name in allowed
    ensures EscapedForm(EscapedToken(t) + s, allowed)
  {
    var ts :| WellFormed(ts) && Within(ts, allowed) && s == Escaped(ts);
    FlattenCons(t, ts);
    var us := [t] + ts;
    assert WellFormed(us) && Within(us, allowed);
  }

  /** Replacing a sentinel by an allowed placeholder keeps text escaped, wherever it is met. */
  lemma {:induction false} ReplaceKeepsForm(ts: seq<Token>, allowed: set<string>, k: nat, ph: Placeholder)
    requires WellFormed(ts) && Within(ts, allowed)
    requires ph.Valid() && ph.name in allowed
    ensures EscapedForm(ReplaceAll(Escaped(ts), Key(k), ph.Text()), allowed)
    decreases |ts|
  {
    var key := Key(k);
    KeyShape(k);
    if ts == [] {
      assert EscapedForm(Escaped(ts), allowed);
    } else if key <= Escaped(ts) {
      FrontChars(ts, key, Escaped(ts)[|key|..]);
      ReplaceHit(Escaped(ts[|key|..]), key, ph.Text());
      ReplaceKeepsForm(ts[|key|..], allowed, k, ph);
      EscapedFormCons(Hole(ph), ReplaceAll(Escaped(ts[|key|..]), key, ph.Text()), allowed);
    } else {
      var s := Escaped(ts[1..]);
      ReplaceKeepsForm(ts[1..], allowed, k, ph);
      if ts[0] == Ch(NUL) {
        ReplaceMiss(NUL, s, key, ph.Text());
      } else {
        if ts[0].Hole? { TextNulFree(ts[0].ph); }
        ReplaceSkip(EscapedToken(ts[0]), s, key, ph.Text());
      }
      EscapedFormCons(ts[0], ReplaceAll(s, key, ph.Text()), allowed);
    }
  }

  lemma {:induction false} RestoreKeepsForm(s: string, phs: seq<Placeholder>, k: nat, allowed: set<string>)
    requires k <= |phs| && EscapedForm(s, allowed)
    requires forall i :: 0 <= i < |phs| ==> phs[i].Valid() && phs[i].name in allowed
    ensures EscapedForm(RestoreAll(s, Texts(phs), k), allowed)
    decreases |phs| - k
  {
    if k < |phs| {
      var ts :| WellFormed(ts) && Within(ts, allowed) && s == Escaped(ts);
      ReplaceKeepsForm(ts, allowed, k, phs[k]);
      RestoreKeepsForm(ReplaceAll(s, Key(k), Texts(phs)[k]), phs, k + 1, allowed);
    }
  }

  lemma {:induction false} DoubledForm(s: string, allowed: set<string>)
    ensures EscapedForm(DoubleBraces(s), allowed)
  {
    if s == "" {
      assert Escaped([]) == DoubleBraces(s);
    } else {
      DoubledForm(s[1..], allowed);
      assert s == [s[0]] + s[1..];
      DoubleChar(s[0], s[1..]);
      EscapedFormCons(Ch(s[0]), DoubleBraces(s[1..]), allowed);
    }
  }

  lemma {:induction false} KeptShape(ts: seq<Token>, allowed: set<string>)
    requires WellFormed(ts) && Within(ts, allowed)
    ensures forall i :: 0 <= i < |Kept(ts)| ==> Kept(ts)[i].Valid() && Kept(ts)[i].name in allowed
  {
    if ts != [] {
      KeptShape(ts[1..], allowed);
    }
  }

  /** For all content: what the escaper returns is escaped text with allowed placeholders only. */
  lemma ThreePassesForm(content: string, allowed: set<string>)
    ensures EscapedForm(ThreePasses(content, allowed), allowed)
  {
    var ts := Tokens(content, allowed);
    TokensSound(content, allowed);
    DoubledForm(Saved(ts, 0), allowed);
    KeptShape(ts, allowed);
    RestoreKeepsForm(DoubleBraces(Saved(ts, 0)), Kept(ts), 0, allowed);
  }

  /** Content that spells a sentinel breaks the law: the sentinel in it is taken for a saved one. */
  lemma SentinelInContent()
    ensures !SentinelFree(Key(0) + "{a}")
    ensures ThreePasses(Key(0) + "{a}", {"a"}) == "{a}" + "{a}"
    ensures OnePass(Key(0) + "{a}", {"a"}) == Key(0) + "{a}"
  {
    var key, ph := Key(0), Placeholder("a", []);
    var s := key + "{a}";
    KeyShape(0);
    assert s[1] == 'P' && s[2] == 'H' && s[3] == NUL;
    HoleAlone(ph, {"a"});
    assert ph.Text() == "{a}";
    NoOpeningBrace(key, "{a}", {"a"});
    var ts := Chars(key) + [Hole(ph)];
    CharsFront(key, [Hole(ph)]);
    assert Texts(Kept(ts)) == ["{a}"];
    assert Saved(ts, 0) == key + key;
    ReplaceNone(key + key, "{", "{{");
    ReplaceNone(key + key, "}", "}}");
    ReplaceTwice(key, "{a}");
    assert RestoreAll(key + key, ["{a}"], 0) == RestoreAll(ReplaceAll(key + key, key, "{a}"), ["{a}"], 1);
  }

  lemma ReplaceTwice(key: string, sub: string)
    requires key != ""
    ensures ReplaceAll(key + key, key, sub) == sub + sub
  {
    ReplaceHit(key, key, sub);
    ReplaceHit("", key, sub);
    assert key + "" == key && sub + "" == sub;
  }

  lemma HoleAlone(ph: Placeholder, allowed: set<string>)
    requires ph.Valid() && ph.name in allowed
    ensures Tokens(ph.Text(), allowed) == [Hole(ph)]
    ensures Kept([Hole(ph)]) == [ph] && Escaped([Hole(ph)]) == ph.Text() && Saved([Hole(ph)], 0) == Key(0)
  {
    PlaceholderComplete(ph, "");
    assert ph.Text() + "" == ph.Text();
    assert [Hole(ph)][1..] == [];
  }

  lemma {:induction false} CharsFront(p: string, ts: seq<Token>)
    requires forall i :: 0 <= i < |p| ==> !IsBrace(p[i])
    ensures Kept(Chars(p) + ts) == Kept(ts)
    ensures Escaped(Chars(p) + ts) == p + Escaped(ts)
    ensures Saved(Chars(p) + ts, 0) == p + Saved(ts, 0)
  {
    if p == "" {
      assert Chars(p) + ts == ts;
    } else {
      var q := p[1..];
      CharsFront(q, ts);
      CharsCons(p[0], q);
      assert p == [p[0]] + q;
      Associate([Ch(p[0])], Chars(q), ts);
      FlattenCons(Ch(p[0]), Chars(q) + ts);
      assert ([Ch(p[0])] + (Chars(q) + ts))[1..] == Chars(q) + ts;
      Associate([p[0]], q, Escaped(ts));
      Associate([p[0]], q, Saved(ts, 0));
    }
  }

  // ---------- the escaper itself ----------

  lemma {:induction false} SavedChars(p: string, ts: seq<Token>, k: nat)
    ensures Saved(Chars(p) + ts, k) == p + Saved(ts, k)
    ensures Kept(Chars(p) + ts) == Kept(ts)
  {
    if p == "" {
      assert Chars(p) + ts == ts;
    } else {
      var q := p[1..];
      SavedChars(q, ts, k);
      CharsCons(p[0], q);
      assert p == [p[0]] + q;
      Associate([Ch(p[0])], Chars(q), ts);
      FlattenCons(Ch(p[0]), Chars(q) + ts);
      assert ([Ch(p[0])] + (Chars(q) + ts))[1..] == Chars(q) + ts;
      Associate([p[0]], q, Saved(ts, k));
    }
  }

  lemma KeysDiffer(i: nat, j: nat)
    requires i != j
    ensures Key(i) != Key(j)
  {
    if Key(i) == Key(j) {
      KeyAtKey(i, j, "");
    }
  }

  /** One match of the first pass: what is still to be saved, given what remains of the text. */
  lemma SavedStep(rest: string, allowed: set<string>, k: nat)
    requires rest != ""
    ensures var m, ts := MatchPlaceholder(rest), Tokens(rest, allowed);
            if m.NoMatch? then
              Saved(ts, k) == [rest[0]] + Saved(Tokens(rest[1..], allowed), k)
              && Kept(ts) == Kept(Tokens(rest[1..], allowed))
            else if m.ph.name !in allowed then
              Saved(ts, k) == m.ph.Text() + Saved(Tokens(m.rest, allowed), k)
              && Kept(ts) == Kept(Tokens(m.rest, allowed))
            else
              Saved(ts, k) == Key(k) + Saved(Tokens(m.rest, allowed), k + 1)
              && Kept(ts) == [m.ph] + Kept(Tokens(m.rest, allowed))
  {
    var m := MatchPlaceholder(rest);
    if m.NoMatch? {
      var us := Tokens(rest[1..], allowed);
      FlattenCons(Ch(rest[0]), us);
      assert ([Ch(rest[0])] + us)[1..] == us;
    } else if m.ph.name !in allowed {
      PassOver(m.ph, m.rest, allowed);
      SavedChars(m.ph.Text(), Tokens(m.rest, allowed), k);
    } else {
      var us := Tokens(m.rest, allowed);
      FlattenCons(Hole(m.ph), us);
      assert ([Hole(m.ph)] + us)[1..] == us;
    }
  }

  /** The sentinels entered so far stand for the placeholders saved so far. */
  ghost predicate SentinelsFor(entered: seq<string>, sentinels: map<string, string>, saved: seq<Placeholder>) {
    && |entered| == |saved|
    && forall k :: 0 <= k < |entered| ==>
         entered[k] == Key(k) && entered[k] in sentinels && sentinels[entered[k]] == saved[k].Text()
  }

  lemma EnterSentinel(entered: seq<string>, sentinels: map<string, string>, saved: seq<Placeholder>, ph: Placeholder)
    requires SentinelsFor(entered, sentinels, saved)
    ensures var key := Key(|entered|);
            SentinelsFor(entered + [key], sentinels[key := ph.Text()], saved + [ph])
  {
    forall k | 0 <= k < |entered| ensures entered[k] != Key(|entered|) { KeysDiffer(k, |entered|); }
  }

  /** First pass: `_PLACEHOLDER_RE.sub(_save, content)`.  The dictionary of sentinels comes with the
      order in which its keys were entered. */
  method SavePlaceholders(content: string, allowed: set<string>)
    returns (done: string, entered: seq<string>, sentinels: map<string, string>)
    ensures done == Saved(Tokens(content, allowed), 0)
    ensures SentinelsFor(entered, sentinels, Kept(Tokens(content, allowed)))
  {
    done, entered, sentinels := "", [], map[];
    ghost var saved: seq<Placeholder> := [];
    var counter, rest := 0, content;
    while rest != ""
      invariant counter == |entered| && SentinelsFor(entered, sentinels, saved)
      invariant done + Saved(Tokens(rest, allowed), counter) == Saved(Tokens(content, allowed), 0)
      invariant saved + Kept(Tokens(rest, allowed)) == Kept(Tokens(content, allowed))
      decreases |rest|
    {
      SavedStep(rest, allowed, counter);
      var m := MatchPlaceholder(rest);
      if m.NoMatch? {
        Associate(done, [rest[0]], Saved(Tokens(rest[1..], allowed), counter));
        done, rest := done + [rest[0]], rest[1..];
      } else if m.ph.name !in allowed {
        Associate(done, m.ph.Text(), Saved(Tokens(m.rest, allowed), counter));
        done, rest := done + m.ph.Text(), m.rest;
      } else {
        var key := Key(counter);
        EnterSentinel(entered, sentinels, saved, m.ph);
        Associate(done, key, Saved(Tokens(m.rest, allowed), counter + 1));
        Associate(saved, [m.ph], Kept(Tokens(m.rest, allowed)));
        entered, sentinels, saved := entered + [key], sentinels[key := m.ph.Text()], saved + [m.ph];
        done, counter, rest := done + key, counter + 1, m.rest;
      }
    }
    assert done + "" == done && saved + [] == saved;
  }

  /** `_auto_escape_braces`: substitution with numbered sentinels, brace doubling, restoring in the
      order in which the sentinels were entered. */
  method AutoEscapeBraces(content: string, allowed: set<string>) returns (r: string)
    ensures r == ThreePasses(content, allowed)
    ensures EscapedForm(r, allowed)
    ensures SentinelFree(content) ==> ParsesTo(r, content, FieldsOf(Kept(Tokens(content, allowed))))
  {
    var entered, sentinels;
    r, entered, sentinels := SavePlaceholders(content, allowed);
    r := ReplaceAll(r, "{", "{{");
    r := ReplaceAll(r, "}", "}}");
    var k := 0;
    while k < |entered|
      invariant 0 <= k <= |entered|
      invariant RestoreAll(r, Texts(Kept(Tokens(content, allowed))), k) == ThreePasses(content, allowed)
    {
      r := ReplaceAll(r, entered[k], sentinels[entered[k]]);
      k := k + 1;
    }
    ThreePassesForm(content, allowed);
    if SentinelFree(content) { EscapeRoundTrip(content, allowed); }
  }
}
