/** The placeholder pattern of the escaper and the token view of a template.

    A placeholder is `{ident}` followed inside the braces by any number of `.ident` and `[digits]`
    parts.  A template is read left to right as placeholders whose identifier is allowed and single
    characters.  `Flatten` is the template again; `Escaped` doubles every brace outside placeholders. */
module PromptTokens {
  import opened Sequences
  import opened Options
  import opened FormatGrammar
  import opened FormatPrinter
  import opened Decimals

  predicate Letter(c: char) { 'a' <= c <= 'z' || 'A' <= c <= 'Z' || c == '_' }

  predicate Word(c: char) { Letter(c) || Digit(c) }

  predicate Identifier(s: string) {
    s != "" && Letter(s[0]) && forall i :: 0 <= i < |s| ==> Word(s[i])
  }

  datatype Suffix = Attribute(name: string) | Index(digits: string)

  predicate ValidSuffix(x: Suffix) {
    match x
    case Attribute(name) => Identifier(name)
    case Index(digits) => Digits(digits)
  }

  predicate ValidSuffixes(xs: seq<Suffix>) {
    xs == [] || (ValidSuffix(xs[0]) && ValidSuffixes(xs[1..]))
  }

  function SuffixText(x: Suffix): string {
    match x
    case Attribute(name) => "." + name
    case Index(digits) => "[" + digits + "]"
  }

  function SuffixesText(xs: seq<Suffix>): string {
    if xs == [] then "" else SuffixText(xs[0]) + SuffixesText(xs[1..])
  }

  datatype Placeholder = Placeholder(name: string, suffixes: seq<Suffix>) {
    predicate Valid() {
      Identifier(name) && ValidSuffixes(suffixes)
    }

    /** The text between the braces. */
    function Inner(): string { name + SuffixesText(suffixes) }

    function Text(): string { "{" + Inner() + "}" }

    predicate Plain() { suffixes == [] }
  }

  // ---------- the pattern as a scanner ----------

  /** Length of the longest prefix of word characters. */
  function WordSpan(s: string): (n: nat)
    ensures n <= |s|
    ensures forall i :: 0 <= i < n ==> Word(s[i])
    ensures n < |s| ==> !Word(s[n])
  {
    if s == "" || !Word(s[0]) then 0 else 1 + WordSpan(s[1..])
  }

  function DigitSpan(s: string): (n: nat)
    ensures n <= |s|
    ensures forall i :: 0 <= i < n ==> Digit(s[i])
    ensures n < |s| ==> !Digit(s[n])
  {
    if s == "" || !Digit(s[0]) then 0 else 1 + DigitSpan(s[1..])
  }

  datatype SuffixMatch = NoSuffix | OneSuffix(suffix: Suffix, rest: string)

  /** One `.ident` or `[digits]` at the start of s. */
  function MatchSuffix(s: string): (r: SuffixMatch)
    ensures r.OneSuffix? ==> ValidSuffix(r.suffix) && s == SuffixText(r.suffix) + r.rest && |r.rest| < |s|
  {
    if s == "" then NoSuffix
    else if s[0] == '.' then
      var n := WordSpan(s[1..]);
      if n == 0 || !Letter(s[1]) then NoSuffix else OneSuffix(Attribute(s[1..1 + n]), s[1 + n..])
    else if s[0] == '[' then
      var n := DigitSpan(s[1..]);
      if n == 0 || 1 + n == |s| || s[1 + n] != ']' then NoSuffix
      else OneSuffix(Index(s[1..1 + n]), s[2 + n..])
    else NoSuffix
  }

  datatype SuffixesMatch = NoSuffixes | Suffixes(suffixes: seq<Suffix>, rest: string)

  /** All suffixes and the closing brace. */
  function MatchSuffixes(s: string): (r: SuffixesMatch)
    ensures r.Suffixes? ==> s == SuffixesText(r.suffixes) + ("}" + r.rest)
    ensures r.Suffixes? ==> ValidSuffixes(r.suffixes)
    decreases |s|
  {
    if s == "" then NoSuffixes
    else if s[0] == '}' then
      Suffixes([], s[1..])
    else match MatchSuffix(s)
      case NoSuffix => NoSuffixes
      case OneSuffix(x, s1) =>
        match MatchSuffixes(s1)
        case NoSuffixes => NoSuffixes
        case Suffixes(xs, rest) =>
          SuffixesCons(x, xs);
          Associate(SuffixText(x), SuffixesText(xs), "}" + rest);
          Suffixes([x] + xs, rest)
  }

  datatype Match = NoMatch | Matched(ph: Placeholder, rest: string)

  /** The pattern tried at the start of s: it matches only text of a valid placeholder. */
  function MatchPlaceholder(s: string): (r: Match)
    ensures r.Matched? ==> r.ph.Valid() && s == r.ph.Text() + r.rest && s[0] == '{' && |r.rest| < |s|
  {
    if |s| < 2 || s[0] != '{' || !Letter(s[1]) then NoMatch
    else
      var n := WordSpan(s[1..]);
      match MatchSuffixes(s[1 + n..])
      case NoSuffixes => NoMatch
      case Suffixes(xs, rest) =>
        PlaceholderText(s, n, Placeholder(s[1..1 + n], xs), rest);
        Matched(Placeholder(s[1..1 + n], xs), rest)
  }

  lemma PlaceholderText(s: string, n: nat, ph: Placeholder, rest: string)
    requires |s| > n && s[0] == '{' && ph.name == s[1..1 + n]
    requires s[1 + n..] == SuffixesText(ph.suffixes) + ("}" + rest)
    ensures s == ph.Text() + rest
  {
    Cut3(s, n);
    Rebracket(ph.name, SuffixesText(ph.suffixes), rest);
  }

  lemma Rebracket(a: string, x: string, rest: string)
    ensures ("{" + (a + x) + "}") + rest == "{" + (a + (x + ("}" + rest)))
    ensures ("{" + (a + x) + "}") + rest == "{" + ((a + x) + ("}" + rest))
  {
    Associate(a, x, "}" + rest);
    Associate("{", a + x, "}");
    Associate("{", (a + x) + "}", rest);
    Associate(a + x, "}", rest);
  }

  lemma Cut3(s: string, n: nat)
    requires |s| > n
    ensures s == [s[0]] + (s[1..1 + n] + s[1 + n..])
  {
  }

  lemma Halves<T>(a: seq<T>, b: seq<T>)
    ensures (a + b)[..|a|] == a && (a + b)[|a|..] == b
  {
  }

  lemma SuffixesCons(x: Suffix, xs: seq<Suffix>)
    ensures SuffixesText([x] + xs) == SuffixText(x) + SuffixesText(xs)
    ensures ValidSuffixes([x] + xs) == (ValidSuffix(x) && ValidSuffixes(xs))
  {
    assert ([x] + xs)[1..] == xs;
  }

  lemma {:induction false} WordSpanOf(w: string, s: string)
    requires forall i :: 0 <= i < |w| ==> Word(w[i])
    requires s != "" ==> !Word(s[0])
    ensures WordSpan(w + s) == |w|
  {
    if w == "" {
      assert w + s == s;
    } else {
      assert (w + s)[1..] == w[1..] + s;
      WordSpanOf(w[1..], s);
    }
  }

  lemma {:induction false} DigitSpanOf(w: string, s: string)
    requires forall i :: 0 <= i < |w| ==> Digit(w[i])
    requires s != "" ==> !Digit(s[0])
    ensures DigitSpan(w + s) == |w|
  {
    if w == "" {
      assert w + s == s;
    } else {
      assert (w + s)[1..] == w[1..] + s;
      DigitSpanOf(w[1..], s);
    }
  }

  lemma SuffixesHead(xs: seq<Suffix>, s: string)
    ensures var t := SuffixesText(xs) + ("}" + s); t != "" && !Word(t[0])
  {
    if xs != [] {
      assert SuffixesText(xs)[0] == SuffixText(xs[0])[0];
    }
  }

  lemma SuffixComplete(x: Suffix, tail: string)
    requires ValidSuffix(x) && tail != "" && !Word(tail[0])
    ensures MatchSuffix(SuffixText(x) + tail) == OneSuffix(x, tail)
  {
    match x {
      case Attribute(name) => AttributeComplete(name, tail);
      case Index(digits) => IndexComplete(digits, tail);
    }
  }

  lemma AttributeComplete(name: string, tail: string)
    requires Identifier(name) && tail != "" && !Word(tail[0])
    ensures MatchSuffix("." + name + tail) == OneSuffix(Attribute(name), tail)
  {
    var t := "." + name + tail;
    assert t[1..] == name + tail;
    WordSpanOf(name, tail);
    Halves(name, tail);
    assert t[1..1 + |name|] == t[1..][..|name|] && t[1 + |name|..] == t[1..][|name|..];
  }

  lemma IndexComplete(digits: string, tail: string)
    requires Digits(digits)
    ensures MatchSuffix("[" + digits + "]" + tail) == OneSuffix(Index(digits), tail)
  {
    var t, rest := "[" + digits + "]" + tail, "]" + tail;
    assert t[1..] == digits + rest;
    DigitSpanOf(digits, rest);
    Halves(digits, rest);
    assert t[1..1 + |digits|] == t[1..][..|digits|] && t[1 + |digits|..] == t[1..][|digits|..];
    assert rest[1..] == tail && t[2 + |digits|..] == t[1 + |digits|..][1..];
  }

  lemma {:induction false} SuffixesComplete(xs: seq<Suffix>, s: string)
    requires ValidSuffixes(xs)
    ensures MatchSuffixes(SuffixesText(xs) + ("}" + s)) == Suffixes(xs, s)
  {
    if xs == [] {
      assert SuffixesText(xs) + ("}" + s) == "}" + s;
      assert ("}" + s)[1..] == s;
    } else {
      var x, tail := xs[0], SuffixesText(xs[1..]) + ("}" + s);
      SuffixesComplete(xs[1..], s);
      SuffixesHead(xs[1..], s);
      SuffixComplete(x, tail);
      Associate(SuffixText(x), SuffixesText(xs[1..]), "}" + s);
      assert [x] + xs[1..] == xs;
    }
  }

  /** The pattern finds every valid placeholder whole, whatever follows it. */
  lemma {:induction false} PlaceholderComplete(ph: Placeholder, s: string)
    requires ph.Valid()
    ensures MatchPlaceholder(ph.Text() + s) == Matched(ph, s)
  {
    var tail := SuffixesText(ph.suffixes) + ("}" + s);
    var t := ph.Text() + s;
    PlaceholderLayout(ph, s);
    assert t[1..] == ph.name + tail;
    Halves(ph.name, tail);
    assert t[1..1 + |ph.name|] == ph.name && t[1 + |ph.name|..] == tail;
    SuffixesHead(ph.suffixes, s);
    WordSpanOf(ph.name, tail);
    SuffixesComplete(ph.suffixes, s);
  }

  lemma PlaceholderLayout(ph: Placeholder, s: string)
    ensures ph.Text() + s == "{" + (ph.name + (SuffixesText(ph.suffixes) + ("}" + s)))
    ensures ph.Text() + s == "{" + (ph.Inner() + ("}" + s))
  {
    Rebracket(ph.name, SuffixesText(ph.suffixes), s);
  }

  // ---------- characters of a placeholder ----------

  predicate InnerChar(c: char) { Word(c) || c == '.' || c == '[' || c == ']' }

  lemma {:induction false} SuffixesChars(xs: seq<Suffix>)
    requires ValidSuffixes(xs)
    ensures forall i :: 0 <= i < |SuffixesText(xs)| ==> InnerChar(SuffixesText(xs)[i])
  {
    if xs != [] {
      SuffixesChars(xs[1..]);
      forall i | 0 <= i < |SuffixText(xs[0])| ensures InnerChar(SuffixText(xs[0])[i]) {
      }
    }
  }

  lemma InnerChars(ph: Placeholder)
    requires ph.Valid()
    ensures forall i :: 0 <= i < |ph.Inner()| ==> InnerChar(ph.Inner()[i])
  {
    SuffixesChars(ph.suffixes);
  }

  // ---------- tokens ----------

  datatype Token = Ch(c: char) | Hole(ph: Placeholder)

  predicate WellFormed(ts: seq<Token>) {
    forall i :: 0 <= i < |ts| ==> ts[i].Hole? ==> ts[i].ph.Valid()
  }

  predicate Within(ts: seq<Token>, allowed: set<string>) {
    forall i :: 0 <= i < |ts| ==> ts[i].Hole? ==> ts[i].ph.name in allowed
  }

  function TokenText(t: Token): string {
    match t
    case Ch(c) => [c]
    case Hole(ph) => ph.Text()
  }

  function Flatten(ts: seq<Token>): string {
    if ts == [] then "" else TokenText(ts[0]) + Flatten(ts[1..])
  }

  function EscapedToken(t: Token): string {
    match t
    case Ch(c) => if IsBrace(c) then [c, c] else [c]
    case Hole(ph) => ph.Text()
  }

  function Escaped(ts: seq<Token>): string {
    if ts == [] then "" else EscapedToken(ts[0]) + Escaped(ts[1..])
  }

  /** The placeholders kept, in order. */
  function Kept(ts: seq<Token>): seq<Placeholder> {
    if ts == [] then []
    else (if ts[0].Hole? then [ts[0].ph] else []) + Kept(ts[1..])
  }

  /** A template cut into allowed placeholders and single characters. */
  function Tokens(s: string, allowed: set<string>): (ts: seq<Token>)
    decreases |s|
  {
    if s == "" then []
    else
      var m := MatchPlaceholder(s);
      if m.Matched? && m.ph.name in allowed then
        [Hole(m.ph)] + Tokens(m.rest, allowed)
      else
        [Ch(s[0])] + Tokens(s[1..], allowed)
  }

  lemma FlattenCons(t: Token, ts: seq<Token>)
    ensures Flatten([t] + ts) == TokenText(t) + Flatten(ts)
    ensures Escaped([t] + ts) == EscapedToken(t) + Escaped(ts)
    ensures Kept([t] + ts) == (if t.Hole? then [t.ph] else []) + Kept(ts)
  {
    assert ([t] + ts)[1..] == ts;
  }

  /** Cutting loses nothing, and keeps only allowed placeholders. */
  lemma {:induction false} TokensSound(s: string, allowed: set<string>)
    ensures Flatten(Tokens(s, allowed)) == s
    ensures WellFormed(Tokens(s, allowed)) && Within(Tokens(s, allowed), allowed)
    decreases |s|
  {
    if s != "" {
      var m := MatchPlaceholder(s);
      if m.Matched? && m.ph.name in allowed {
        TokensSound(m.rest, allowed);
        FlattenCons(Hole(m.ph), Tokens(m.rest, allowed));
      } else {
        TokensSound(s[1..], allowed);
        FlattenCons(Ch(s[0]), Tokens(s[1..], allowed));
      }
    }
  }

  function Chars(s: string): (ts: seq<Token>)
    ensures |ts| == |s| && forall i :: 0 <= i < |s| ==> ts[i] == Ch(s[i])
  {
    seq(|s|, i requires 0 <= i < |s| => Ch(s[i]))
  }

  lemma CharsCons(c: char, s: string)
    ensures Chars([c] + s) == [Ch(c)] + Chars(s)
  {
  }

  lemma TokensPlain(c: char, s: string, allowed: set<string>)
    requires c != '{'
    ensures Tokens([c] + s, allowed) == [Ch(c)] + Tokens(s, allowed)
  {
    assert ([c] + s)[1..] == s;
  }

  /** Text without an opening brace is read as single characters. */
  lemma {:induction false} NoOpeningBrace(p: string, s: string, allowed: set<string>)
    requires forall i :: 0 <= i < |p| ==> p[i] != '{'
    ensures Tokens(p + s, allowed) == Chars(p) + Tokens(s, allowed)
  {
    if p == "" {
      assert p + s == s;
    } else {
      var c, q := p[0], p[1..];
      assert p == [c] + q;
      Associate([c], q, s);
      NoOpeningBrace(q, s, allowed);
      TokensPlain(c, q + s, allowed);
      CharsCons(c, q);
      Associate([Ch(c)], Chars(q), Tokens(s, allowed));
    }
  }

  lemma TokensBrace(s: string, allowed: set<string>)
    requires var m := MatchPlaceholder("{" + s); m.Matched? ==> m.ph.name !in allowed
    ensures Tokens("{" + s, allowed) == [Ch('{')] + Tokens(s, allowed)
  {
    assert ("{" + s)[1..] == s;
  }

  /** A placeholder that is not allowed may be passed over whole, as `re.sub` does. */
  lemma PassOver(ph: Placeholder, rest: string, allowed: set<string>)
    requires ph.Valid() && ph.name !in allowed
    ensures Tokens(ph.Text() + rest, allowed) == Chars(ph.Text()) + Tokens(rest, allowed)
  {
    var p := ph.Inner() + "}";
    PlaceholderComplete(ph, rest);
    TailOfMatch(ph, rest);
    TokensBrace(p + rest, allowed);
    NoOpeningBrace(p, rest, allowed);
    Associate([Ch('{')], Chars(p), Tokens(rest, allowed));
  }

  lemma TailOfMatch(ph: Placeholder, rest: string)
    requires ph.Valid()
    ensures var p := ph.Inner() + "}";
            ph.Text() + rest == "{" + (p + rest) && Chars(ph.Text()) == [Ch('{')] + Chars(p)
            && forall i :: 0 <= i < |p| ==> p[i] != '{'
  {
    var p := ph.Inner() + "}";
    InnerChars(ph);
    Associate("{", ph.Inner(), "}");
    CharsCons('{', p);
    Associate("{", p, rest);
  }

  // ---------- reading an escaped template back ----------

  lemma {:induction false} WordIsName(w: string)
    requires forall i :: 0 <= i < |w| ==> Word(w[i])
    ensures WellNamed(w, false)
  {
    if w != "" {
      WordIsName(w[1..]);
    }
  }

  lemma {:induction false} DigitsInBrackets(d: string)
    requires forall i :: 0 <= i < |d| ==> Digit(d[i])
    ensures WellNamed(d + "]", true)
  {
    if d != "" {
      assert (d + "]")[1..] == d[1..] + "]";
      DigitsInBrackets(d[1..]);
    }
  }

  lemma SuffixIsName(x: Suffix)
    requires ValidSuffix(x)
    ensures WellNamed(SuffixText(x), false)
  {
    match x {
      case Attribute(name) =>
        WordIsName(name);
        assert SuffixText(x)[1..] == name;
      case Index(digits) =>
        DigitsInBrackets(digits);
        assert SuffixText(x)[1..] == digits + "]";
    }
  }

  lemma {:induction false} SuffixesAreNames(xs: seq<Suffix>)
    requires ValidSuffixes(xs)
    ensures WellNamed(SuffixesText(xs), false)
  {
    if xs != [] {
      SuffixIsName(xs[0]);
      SuffixesAreNames(xs[1..]);
      WellNamedConcat(SuffixText(xs[0]), SuffixesText(xs[1..]), false);
    }
  }

  function HolePiece(ph: Placeholder): Piece { Sub(ph.Inner(), None, None) }

  /** A placeholder is the text of a field without conversion and specifier. */
  lemma HoleIsPiece(ph: Placeholder)
    requires ph.Valid()
    ensures WellFormedPiece(HolePiece(ph)) && PieceText(HolePiece(ph)) == ph.Text()
  {
    WordIsName(ph.name);
    SuffixesAreNames(ph.suffixes);
    WellNamedConcat(ph.name, SuffixesText(ph.suffixes), false);
  }

  lemma ParseHole(ph: Placeholder, s: string)
    requires ph.Valid()
    ensures Parse(ph.Text() + s)
         == Parsed([Item("", Some(HoleField(ph)))] + Parse(s).items, Parse(s).ok)
  {
    HoleIsPiece(ph);
    ParseSub(HolePiece(ph), s);
  }

  function HoleField(ph: Placeholder): Field { Field(ph.Inner(), "", None) }

  /** The fields a parse of kept placeholders must show. */
  function FieldsOf(phs: seq<Placeholder>): (fs: seq<Field>)
    ensures |fs| == |phs|
    ensures forall i :: 0 <= i < |phs| ==> fs[i] == HoleField(phs[i])
  {
    seq(|phs|, i requires 0 <= i < |phs| => HoleField(phs[i]))
  }

  lemma FieldsOfConcat(a: seq<Placeholder>, b: seq<Placeholder>)
    ensures FieldsOf(a + b) == FieldsOf(a) + FieldsOf(b)
  {
  }

  /** s parses without error, and its parse spells out `text` and shows `fields`. */
  predicate ParsesTo(s: string, text: string, fields: seq<Field>) {
    var p := Parse(s);
    p.ok && Reassemble(p.items) == text && Fields(p.items) == fields
  }

  lemma ParseEscapedChar(c: char, s: string, text: string, fields: seq<Field>)
    requires ParsesTo(s, text, fields)
    ensures ParsesTo(EscapedToken(Ch(c)) + s, [c] + text, fields)
  {
    if IsBrace(c) {
      ParseDoubled(c, s);
      ReassembleCons(Item([c], None), Parse(s).items);
    } else {
      ParsePlain(c, s);
      ReassemblePrefixed(c, Parse(s));
    }
  }

  lemma ParseEscapedHole(ph: Placeholder, s: string, text: string, fields: seq<Field>)
    requires ph.Valid() && ParsesTo(s, text, fields)
    ensures ParsesTo(ph.Text() + s, ph.Text() + text, [HoleField(ph)] + fields)
  {
    ParseHole(ph, s);
    HoleItemText(ph);
    ReassembleCons(Item("", Some(HoleField(ph))), Parse(s).items);
  }

  lemma HoleItemText(ph: Placeholder)
    ensures ItemText(Item("", Some(HoleField(ph)))) == ph.Text()
  {
  }

  /** Round trip: escaped text always parses, its literals and re-braced fields give the template
      back, and its fields are the kept placeholders in order. */
  lemma {:induction false} EscapedParsesBack(ts: seq<Token>)
    requires WellFormed(ts)
    ensures ParsesTo(Escaped(ts), Flatten(ts), FieldsOf(Kept(ts)))
  {
    if ts != [] {
      var us := ts[1..];
      EscapedParsesBack(us);
      FieldsHead(ts);
      match ts[0] {
        case Ch(c) => ParseEscapedChar(c, Escaped(us), Flatten(us), FieldsOf(Kept(us)));
        case Hole(ph) => ParseEscapedHole(ph, Escaped(us), Flatten(us), FieldsOf(Kept(us)));
      }
    }
  }

  lemma FieldsHead(ts: seq<Token>)
    requires ts != []
    ensures FieldsOf(Kept(ts)) == (if ts[0].Hole? then [HoleField(ts[0].ph)] else []) + FieldsOf(Kept(ts[1..]))
  {
    var h := if ts[0].Hole? then [ts[0].ph] else [];
    FieldsOfConcat(h, Kept(ts[1..]));
  }

  // ---------- escaping twice ----------

  /** Each literal brace twice. */
  function EscapedTokens(ts: seq<Token>): seq<Token> {
    if ts == [] then []
    else (if ts[0].Ch? && IsBrace(ts[0].c) then [ts[0], ts[0]] else [ts[0]]) + EscapedTokens(ts[1..])
  }

  function LiteralBraces(ts: seq<Token>): nat {
    if ts == [] then 0
    else (if ts[0].Ch? && IsBrace(ts[0].c) then 1 else 0) + LiteralBraces(ts[1..])
  }

  lemma FrontChar(ts: seq<Token>, c: char, s: string)
    requires !IsBrace(c) && Escaped(ts) == [c] + s
    ensures ts != [] && ts[0] == Ch(c) && Escaped(ts[1..]) == s && Flatten(ts) == [c] + Flatten(ts[1..])
  {
    assert Escaped(ts)[0] == EscapedToken(ts[0])[0];
    Halves([c], Escaped(ts[1..]));
    Halves([c], s);
  }

  /** Brace-free text at the front of escaped text is made of single characters of the template. */
  lemma {:induction false} FrontChars(ts: seq<Token>, p: string, rest: string)
    requires forall i :: 0 <= i < |p| ==> !IsBrace(p[i])
    requires Escaped(ts) == p + rest
    ensures |p| <= |ts| && Escaped(ts[|p|..]) == rest && Flatten(ts) == p + Flatten(ts[|p|..])
    decreases |p|
  {
    if p == "" {
      assert ts[0..] == ts && p + rest == rest;
      assert Flatten(ts) == p + Flatten(ts[0..]);
    } else {
      var c, q := p[0], p[1..];
      assert p == [c] + q;
      Associate([c], q, rest);
      FrontChar(ts, c, q + rest);
      FrontChars(ts[1..], q, rest);
      assert ts[1..][|q|..] == ts[|p|..];
      Associate([c], q, Flatten(ts[|p|..]));
    }
  }

  lemma ClosingHead(ts: seq<Token>, rest: string) returns (z: string)
    requires Escaped(ts) == "}" + rest
    ensures Flatten(ts) == "}" + z
  {
    assert Escaped(ts)[0] == '}';
    assert Escaped(ts)[0] == EscapedToken(ts[0])[0];
    z := Flatten(ts[1..]);
  }

  /** A brace doubled in front of escaped text opens an allowed placeholder only where the single
      brace did so in the template. */
  lemma NoNewHole(us: seq<Token>, allowed: set<string>)
    requires WellFormed(us)
    requires var m := MatchPlaceholder("{" + Flatten(us)); m.Matched? ==> m.ph.name !in allowed
    ensures var m := MatchPlaceholder("{" + Escaped(us)); m.Matched? ==> m.ph.name !in allowed
  {
    var m := MatchPlaceholder("{" + Escaped(us));
    if m.Matched? {
      var z := HoleInFlat(us, m.ph, m.rest);
      PlaceholderComplete(m.ph, z);
    }
  }

  lemma HoleInFlat(us: seq<Token>, ph: Placeholder, rest: string) returns (z: string)
    requires ph.Valid() && "{" + Escaped(us) == ph.Text() + rest
    ensures "{" + Flatten(us) == ph.Text() + z
  {
    InnerChars(ph);
    PlaceholderLayout(ph, rest);
    Halves("{", Escaped(us));
    Halves("{", ph.Inner() + ("}" + rest));
    FrontChars(us, ph.Inner(), "}" + rest);
    z := ClosingHead(us[|ph.Inner()|..], rest);
    PlaceholderLayout(ph, z);
  }

  lemma TokensOfDoubled(c: char, us: seq<Token>, allowed: set<string>)
    requires WellFormed(us)
    requires c == '{' ==> var m := MatchPlaceholder("{" + Flatten(us)); m.Matched? ==> m.ph.name !in allowed
    ensures Tokens(EscapedToken(Ch(c)) + Escaped(us), allowed)
         == (if IsBrace(c) then [Ch(c), Ch(c)] else [Ch(c)]) + Tokens(Escaped(us), allowed)
  {
    var e := Escaped(us);
    if IsBrace(c) {
      assert Tokens([c] + e, allowed) == [Ch(c)] + Tokens(e, allowed) by {
        if c == '{' { NoNewHole(us, allowed); TokensBrace(e, allowed); } else { TokensPlain(c, e, allowed); }
      }
      TwiceBrace(c, e, allowed);
    } else {
      TokensPlain(c, e, allowed);
    }
  }

  lemma TwiceBrace(c: char, e: string, allowed: set<string>)
    requires IsBrace(c) && Tokens([c] + e, allowed) == [Ch(c)] + Tokens(e, allowed)
    ensures Tokens([c, c] + e, allowed) == [Ch(c), Ch(c)] + Tokens(e, allowed)
  {
    Associate([c], [c], e);
    assert [c] + [c] == [c, c];
    if c == '{' { TokensBrace([c] + e, allowed); } else { TokensPlain(c, [c] + e, allowed); }
    Associate([Ch(c)], [Ch(c)], Tokens(e, allowed));
  }

  /** Escaped text holds the same placeholders, and each literal brace twice. */
  lemma {:induction false} TokensOfEscaped(s: string, allowed: set<string>)
    ensures Tokens(Escaped(Tokens(s, allowed)), allowed) == EscapedTokens(Tokens(s, allowed))
    decreases |s|
  {
    if s != "" {
      var m := MatchPlaceholder(s);
      if m.Matched? && m.ph.name in allowed {
        var us := Tokens(m.rest, allowed);
        TokensOfEscaped(m.rest, allowed);
        FlattenCons(Hole(m.ph), us);
        PlaceholderComplete(m.ph, Escaped(us));
        assert ([Hole(m.ph)] + us)[1..] == us;
      } else {
        var us := Tokens(s[1..], allowed);
        TokensSound(s[1..], allowed);
        TokensOfEscaped(s[1..], allowed);
        FlattenCons(Ch(s[0]), us);
        assert s == [s[0]] + s[1..];
        TokensOfDoubled(s[0], us, allowed);
        assert ([Ch(s[0])] + us)[1..] == us;
      }
    }
  }

  /** Doubling the literal braces of a token list keeps its placeholders. */
  lemma {:induction false} EscapedTokensShape(ts: seq<Token>)
    ensures Kept(EscapedTokens(ts)) == Kept(ts)
    ensures LiteralBraces(EscapedTokens(ts)) == 2 * LiteralBraces(ts)
  {
    if ts != [] {
      var t, us := ts[0], ts[1..];
      EscapedTokensShape(us);
      assert ([t] + EscapedTokens(us))[1..] == EscapedTokens(us);
      if t.Ch? && IsBrace(t.c) {
        assert [t, t] + EscapedTokens(us) == [t] + ([t] + EscapedTokens(us));
        assert ([t] + ([t] + EscapedTokens(us)))[1..] == [t] + EscapedTokens(us);
      }
    }
  }

  /** Escaping lengthens a template by its literal braces, so it leaves the template alone exactly
      when every brace belongs to a placeholder. */
  lemma {:induction false} EscapedLength(ts: seq<Token>)
    ensures |Escaped(ts)| == |Flatten(ts)| + LiteralBraces(ts)
    ensures LiteralBraces(ts) == 0 ==> Escaped(ts) == Flatten(ts)
  {
    if ts != [] {
      EscapedLength(ts[1..]);
    }
  }
}
