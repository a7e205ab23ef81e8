/** Writing format strings, and reading them back: the parser accepts exactly what the printer writes.

    A format string is written from single characters and replacement fields: a brace is doubled, and a field is
    `{name}`, `{name!c}`, `{name:spec}` or `{name!c:spec}`. */
module FormatPrinter {
  import opened Sequences
  import opened Options
  import opened FormatGrammar

  datatype Piece =
    | Lit(c: char)
    | Sub(name: string, conversion: Option<char>, spec: Option<string>)

  function PieceText(p: Piece): string {
    match p
    case Lit(c) => if c == '{' || c == '}' then [c, c] else [c]
    case Sub(name, _, _) =>
      "{" + (name + FieldTail(p))
  }

  /** What follows the name of a field. */
  function FieldTail(p: Piece): string
    requires p.Sub?
  {
    (if p.conversion.Some? then "!" + [p.conversion.value] else "") + SpecText(p.spec)
  }

  function SpecText(spec: Option<string>): string { (if spec.Some? then ":" + spec.value else "") + "}" }

  function Print(ps: seq<Piece>): string {
    if ps == [] then "" else PieceText(ps[0]) + Print(ps[1..])
  }

  /** A name has no brace, colon or exclamation mark but in brackets, and its brackets are closed; `inside` tells
      whether the text begins within brackets. */
  predicate WellNamed(w: string, inside: bool) {
    if w == "" then !inside
    else if inside then WellNamed(w[1..], w[0] != ']')
    else w[0] != '{' && w[0] != '}' && w[0] != ':' && w[0] != '!' && WellNamed(w[1..], w[0] == '[')
  }

  /** The braces of the text balance, `depth` of them being open before it. */
  predicate Balanced(w: string, depth: nat) {
    if w == "" then depth == 0
    else if w[0] == '{' then Balanced(w[1..], depth + 1)
    else if w[0] == '}' then depth > 0 && Balanced(w[1..], depth - 1)
    else Balanced(w[1..], depth)
  }

  predicate WellFormedPiece(p: Piece) {
    p.Sub? ==> WellNamed(p.name, false) && (p.spec.Some? ==> Balanced(p.spec.value, 0))
  }

  predicate WellFormedPieces(ps: seq<Piece>) { forall i :: 0 <= i < |ps| ==> WellFormedPiece(ps[i]) }

  // ---------- what a parse shows ----------

  datatype View = Char(c: char) | Shown(field: Field)

  function Views(items: seq<Item>): seq<View> {
    if items == [] then [] else ItemViews(items[0]) + Views(items[1..])
  }

  function ItemViews(item: Item): seq<View> {
    CharViews(item.literal) + (if item.field.Some? then [Shown(item.field.value)] else [])
  }

  function CharViews(s: string): (vs: seq<View>)
    ensures |vs| == |s| && forall i :: 0 <= i < |s| ==> vs[i] == Char(s[i])
  {
    seq(|s|, i requires 0 <= i < |s| => Char(s[i]))
  }

  function FieldOf(p: Piece): Field
    requires p.Sub?
  {
    Field(p.name, if p.spec.Some? then p.spec.value else "", p.conversion)
  }

  function ViewOf(p: Piece): View { if p.Lit? then Char(p.c) else Shown(FieldOf(p)) }

  function ViewsOf(ps: seq<Piece>): (vs: seq<View>)
    ensures |vs| == |ps| && forall i :: 0 <= i < |ps| ==> vs[i] == ViewOf(ps[i])
  {
    seq(|ps|, i requires 0 <= i < |ps| => ViewOf(ps[i]))
  }

  // ---------- names and specifiers ----------

  /** Positions are counted in the whole text t, of which w is the part from i on. */
  predicate PartAt(t: string, i: nat, w: string) { i + |w| <= |t| && t[i..i + |w|] == w }

  lemma PartTail(t: string, i: nat, w: string)
    requires PartAt(t, i, w) && w != ""
    ensures t[i] == w[0] && PartAt(t, i + 1, w[1..])
  {
    assert t[i..i + |w|][0] == w[0];
    assert t[i + 1..i + |w|] == t[i..i + |w|][1..];
  }

  lemma {:induction false} NameIsRead(t: string, i: nat, w: string, inside: bool)
    requires PartAt(t, i, w) && WellNamed(w, inside) && i + |w| < |t| && FieldStop(t[i + |w|])
    ensures NameEnd(t, if inside then BracketEnd(t, i) else i) == Some(i + |w|)
    decreases |w|
  {
    if w != "" {
      PartTail(t, i, w);
      NameIsRead(t, i + 1, w[1..], if inside then w[0] != ']' else w[0] == '[');
    }
  }

  lemma {:induction false} ReadIsName(t: string, i: nat, inside: bool)
    requires i <= |t| && NameEnd(t, if inside then BracketEnd(t, i) else i).Some?
    ensures var e := NameEnd(t, if inside then BracketEnd(t, i) else i).value;
            i <= e && WellNamed(t[i..e], inside)
    decreases |t| - i
  {
    if i < |t| && (inside || !FieldStop(t[i])) {
      var e := NameEnd(t, if inside then BracketEnd(t, i) else i).value;
      ReadIsName(t, i + 1, if inside then t[i] != ']' else t[i] == '[');
      assert t[i..e][1..] == t[i + 1..e];
    }
  }

  lemma {:induction false} SpecIsRead(t: string, i: nat, w: string, depth: nat)
    requires PartAt(t, i, w) && Balanced(w, depth) && i + |w| < |t| && t[i + |w|] == '}'
    ensures SpecEnd(t, i, depth + 1) == Some(i + |w|)
    decreases |w|
  {
    if w != "" {
      PartTail(t, i, w);
      SpecIsRead(t, i + 1, w[1..], if w[0] == '{' then depth + 1 else if w[0] == '}' then depth - 1 else depth);
    }
  }

  lemma {:induction false} ReadIsSpec(t: string, i: nat, depth: nat)
    requires i <= |t| && SpecEnd(t, i, depth + 1).Some?
    ensures Balanced(t[i..SpecEnd(t, i, depth + 1).value], depth)
    decreases |t| - i
  {
    var e := SpecEnd(t, i, depth + 1).value;
    if !(t[i] == '}' && depth == 0) {
      ReadIsSpec(t, i + 1, if t[i] == '}' then depth - 1 else if t[i] == '{' then depth + 1 else depth);
      assert t[i..e][1..] == t[i + 1..e];
    }
  }

  lemma {:induction false} WellNamedConcat(a: string, b: string, inside: bool)
    requires WellNamed(a, inside) && WellNamed(b, false)
    ensures WellNamed(a + b, inside)
  {
    if a == "" {
      assert a + b == b;
    } else {
      assert (a + b)[1..] == a[1..] + b;
      WellNamedConcat(a[1..], b, if inside then a[0] != ']' else a[0] == '[');
    }
  }

  // ---------- one field ----------

  lemma FieldLayout(p: Piece, s: string)
    requires p.Sub?
    ensures PieceText(p) + s == "{" + (p.name + (FieldTail(p) + s))
  {
    Associate("{", p.name + FieldTail(p), s);
    Associate(p.name, FieldTail(p), s);
  }

  lemma NameBefore(name: string, tail: string)
    requires WellNamed(name, false) && tail != "" && FieldStop(tail[0])
    ensures NameEnd(name + tail, 0) == Some(|name|) && (name + tail)[..|name|] == name
  {
    var u := name + tail;
    assert u[0..0 + |name|] == name && u[|name|] == tail[0];
    NameIsRead(u, 0, name, false);
  }

  /** A specifier behind v is read up to its closing brace. */
  lemma SpecBehind(v: string, spec: Option<string>, name: string, conversion: Option<char>, s: string)
    requires spec.Some? ==> Balanced(spec.value, 0)
    ensures var u := v + (SpecText(spec) + s);
            if spec.None? then u[|v|] == '}' && u[|v| + 1..] == s
            else u[|v|] == ':'
                 && ParseSpec(u, name, conversion, |v| + 1) == GoodField(Field(name, spec.value, conversion), s)
  {
    var u := v + (SpecText(spec) + s);
    if spec.Some? {
      var w, i := spec.value, |v| + 1;
      assert u == v + (":" + (w + ("}" + s)));
      assert u[i..i + |w|] == w && u[i + |w|] == '}' && u[i + |w| + 1..] == s;
      SpecIsRead(u, i, w, 0);
    } else {
      assert u == v + ("}" + s);
    }
  }

  lemma FieldIsRead(p: Piece, s: string)
    requires p.Sub? && WellFormedPiece(p)
    ensures ParseField(p.name + (FieldTail(p) + s)) == GoodField(FieldOf(p), s)
  {
    match p.conversion {
      case None => PlainFieldIsRead(p, s);
      case Some(c) => ConvertedFieldIsRead(p, c, s);
    }
  }

  lemma PlainFieldIsRead(p: Piece, s: string)
    requires p.Sub? && WellFormedPiece(p) && p.conversion == None
    ensures ParseField(p.name + (FieldTail(p) + s)) == GoodField(FieldOf(p), s)
  {
    assert FieldTail(p) == SpecText(p.spec);
    NameBefore(p.name, SpecText(p.spec) + s);
    SpecBehind(p.name, p.spec, p.name, None, s);
  }

  lemma ConvertedFieldIsRead(p: Piece, c: char, s: string)
    requires p.Sub? && WellFormedPiece(p) && p.conversion == Some(c)
    ensures ParseField(p.name + (FieldTail(p) + s)) == GoodField(FieldOf(p), s)
  {
    var mark := "!" + [c];
    var v := p.name + mark;
    var u := v + (SpecText(p.spec) + s);
    assert FieldTail(p) + s == mark + (SpecText(p.spec) + s) by { Associate(mark, SpecText(p.spec), s); }
    Associate(p.name, mark, SpecText(p.spec) + s);
    NameBefore(p.name, mark + (SpecText(p.spec) + s));
    assert u[|p.name|] == v[|p.name|] == '!' && u[|p.name| + 1] == v[|p.name| + 1] == c;
    SpecBehind(v, p.spec, p.name, Some(c), s);
  }

  lemma ParseSub(p: Piece, s: string)
    requires p.Sub? && WellFormedPiece(p)
    ensures Parse(PieceText(p) + s) == Parsed([Item("", Some(FieldOf(p)))] + Parse(s).items, Parse(s).ok)
  {
    var u := p.name + (FieldTail(p) + s);
    FieldLayout(p, s);
    FieldIsRead(p, s);
    FirstOfField(p, s);
    var t := "{" + u;
    assert t[1..] == u && t[0] == '{' && LiteralEnd(t) == 0 && t[..0] == "";
  }

  /** No field begins with a brace, so none is taken for a doubled brace. */
  lemma FirstOfField(p: Piece, s: string)
    requires p.Sub? && WellFormedPiece(p)
    ensures var u := p.name + (FieldTail(p) + s); u != "" && u[0] != '{'
  {
  }

  /** A specifier that was read, as it was written. */
  lemma SpecFrom(u: string, i: nat) returns (spec: Option<string>, rest: string)
    requires i < |u| && (u[i] == '}' || (u[i] == ':' && SpecEnd(u, i + 1, 1).Some?))
    ensures u[i..] == SpecText(spec) + rest
    ensures u[i] == '}' ==> spec == None && rest == u[i + 1..]
    ensures u[i] == ':' ==> var n := SpecEnd(u, i + 1, 1).value; spec == Some(u[i + 1..n]) && rest == u[n + 1..]
    ensures spec.Some? ==> Balanced(spec.value, 0)
  {
    if u[i] == '}' {
      spec, rest := None, u[i + 1..];
    } else {
      var n := SpecEnd(u, i + 1, 1).value;
      ReadIsSpec(u, i + 1, 0);
      spec, rest := Some(u[i + 1..n]), u[n + 1..];
    }
  }

  lemma PlainTailFrom(u: string, e: nat) returns (p: Piece)
    requires NameEnd(u, 0) == Some(e) && u[e] != '!' && ParseField(u).GoodField?
    ensures p.Sub? && p.name == u[..e] && (p.spec.Some? ==> Balanced(p.spec.value, 0))
    ensures u[e..] == FieldTail(p) + ParseField(u).rest
  {
    var spec, rest := SpecFrom(u, e);
    p := Sub(u[..e], None, spec);
    assert "" + SpecText(spec) == SpecText(spec);
  }

  lemma ConvertedTailFrom(u: string, e: nat) returns (p: Piece)
    requires NameEnd(u, 0) == Some(e) && u[e] == '!' && ParseField(u).GoodField?
    ensures p.Sub? && p.name == u[..e] && (p.spec.Some? ==> Balanced(p.spec.value, 0))
    ensures u[e..] == FieldTail(p) + ParseField(u).rest
  {
    var mark := "!" + [u[e + 1]];
    var spec, rest := SpecFrom(u, e + 2);
    p := Sub(u[..e], Some(u[e + 1]), spec);
    assert u[e..] == mark + u[e + 2..];
    Associate(mark, SpecText(spec), rest);
  }

  /** The field that was read, as it was written. */
  lemma FieldFrom(u: string) returns (p: Piece)
    requires ParseField(u).GoodField?
    ensures p.Sub? && WellFormedPiece(p) && "{" + u == PieceText(p) + ParseField(u).rest
  {
    var e := NameEnd(u, 0).value;
    var rest := ParseField(u).rest;
    SplitAt(u, e);
    ReadIsName(u, 0, false);
    if u[e] == '!' { p := ConvertedTailFrom(u, e); } else { p := PlainTailFrom(u, e); }
    FieldPutTogether(p, u, e, rest);
  }

  lemma FieldPutTogether(p: Piece, u: string, e: nat, rest: string)
    requires p.Sub? && e <= |u| && p.name == u[..e] && u[e..] == FieldTail(p) + rest
    ensures "{" + u == PieceText(p) + rest
  {
    FieldLayout(p, rest);
    SplitAt(u, e);
  }

  // ---------- whole format strings ----------

  lemma PrintCons(p: Piece, ps: seq<Piece>)
    ensures Print([p] + ps) == PieceText(p) + Print(ps)
  {
    assert ([p] + ps)[1..] == ps;
  }

  lemma ViewsCons(item: Item, items: seq<Item>)
    ensures Views([item] + items) == ItemViews(item) + Views(items)
  {
    assert ([item] + items)[1..] == items;
  }

  lemma ViewsPrefixed(c: char, p: Parsed)
    requires p.ok
    ensures Views(Prefixed(c, p).items) == [Char(c)] + Views(p.items)
  {
    if p.items == [] {
      ViewsCons(Item([c], None), []);
      assert CharViews([c]) + [] + [] == [Char(c)] && [Item([c], None)] + [] == [Item([c], None)];
    } else {
      var old0, rest := p.items[0], p.items[1..];
      var item := old0.(literal := [c] + old0.literal);
      ViewsCons(item, rest);
      assert CharViews(item.literal) == [Char(c)] + CharViews(old0.literal);
      assert ItemViews(item) == [Char(c)] + ItemViews(old0);
      Associate([Char(c)], ItemViews(old0), Views(rest));
    }
  }

  /** Reading back what was printed gives the characters and the fields that were written, in order. */
  lemma {:induction false} PrintParses(ps: seq<Piece>)
    requires WellFormedPieces(ps)
    ensures Parse(Print(ps)).ok && Views(Parse(Print(ps)).items) == ViewsOf(ps)
  {
    if ps != [] {
      var p, qs := ps[0], ps[1..];
      PrintParses(qs);
      assert ViewsOf(ps) == [ViewOf(p)] + ViewsOf(qs);
      var rest := Parse(Print(qs));
      match p {
        case Lit(c) =>
          if IsBrace(c) {
            ParseDoubled(c, Print(qs));
            ViewsCons(Item([c], None), rest.items);
            assert CharViews([c]) + [] == [Char(c)];
          } else {
            ParsePlain(c, Print(qs));
            ViewsPrefixed(c, rest);
          }
        case Sub(_, _, _) =>
          ParseSub(p, Print(qs));
          ViewsCons(Item("", Some(FieldOf(p))), rest.items);
          assert CharViews("") + [Shown(FieldOf(p))] == [Shown(FieldOf(p))];
      }
    }
  }

  function Lits(s: string): (ps: seq<Piece>)
    ensures |ps| == |s| && forall i :: 0 <= i < |s| ==> ps[i] == Lit(s[i])
  {
    seq(|s|, i requires 0 <= i < |s| => Lit(s[i]))
  }

  lemma {:induction false} PrintPlain(w: string, ps: seq<Piece>)
    requires forall i :: 0 <= i < |w| ==> !IsBrace(w[i])
    ensures Print(Lits(w) + ps) == w + Print(ps)
  {
    if w == "" {
      assert Lits(w) + ps == ps;
    } else {
      var v := w[1..];
      assert Lits(w) + ps == [Lit(w[0])] + (Lits(v) + ps);
      PrintPlain(v, ps);
      PrintCons(Lit(w[0]), Lits(v) + ps);
      assert w == [w[0]] + v;
      Associate([w[0]], v, Print(ps));
    }
  }

  /** The text from the first brace on, as it was written, when what is left behind the field is known. */
  lemma BraceFrom(s: string, rs: seq<Piece>) returns (ps: seq<Piece>)
    requires s != "" && Next(s).Yield? && WellFormedPieces(rs) && Print(rs) == Next(s).rest
    ensures WellFormedPieces(ps) && Print(ps) == s[LiteralEnd(s)..]
  {
    var n := LiteralEnd(s);
    if n == |s| {
      ps := [];
    } else if s[n + 1] == s[n] {
      ps := [Lit(s[n])] + rs;
      PrintCons(Lit(s[n]), rs);
    } else {
      var p := FieldFrom(s[n + 1..]);
      ps := [p] + rs;
      PrintCons(p, rs);
      assert s[n..] == "{" + s[n + 1..];
    }
  }

  lemma PrintBehind(s: string, n: nat, qs: seq<Piece>) returns (ps: seq<Piece>)
    requires n <= |s| && (forall i :: 0 <= i < n ==> !IsBrace(s[i])) && WellFormedPieces(qs) && Print(qs) == s[n..]
    ensures WellFormedPieces(ps) && Print(ps) == s
  {
    ps := Lits(s[..n]) + qs;
    PrintPlain(s[..n], qs);
    SplitAt(s, n);
  }

  /** Whatever is read without an error could have been printed. */
  lemma {:induction false} ParsedIsPrinted(s: string) returns (ps: seq<Piece>)
    requires Parse(s).ok
    ensures WellFormedPieces(ps) && Print(ps) == s
    decreases |s|
  {
    if s == "" {
      ps := [];
    } else {
      var rs := ParsedIsPrinted(Next(s).rest);
      var qs := BraceFrom(s, rs);
      ps := PrintBehind(s, LiteralEnd(s), qs);
    }
  }

  ghost predicate Printed(s: string, ps: seq<Piece>) { WellFormedPieces(ps) && s == Print(ps) }

  /** The parser accepts exactly the texts of well-formed pieces. */
  lemma ParsesIffPrinted(s: string)
    ensures Parse(s).ok <==> exists ps :: Printed(s, ps)
  {
    if Parse(s).ok {
      var ps := ParsedIsPrinted(s);
      assert Printed(s, ps);
    }
    forall ps | Printed(s, ps) ensures Parse(s).ok { PrintParses(ps); }
  }

  /** The fields of a parse are those it shows. */
  lemma {:induction false} FieldsAreShown(items: seq<Item>, f: Field)
    ensures f in Fields(items) <==> Shown(f) in Views(items)
  {
    if items != [] {
      FieldsAreShown(items[1..], f);
      assert Shown(f) !in CharViews(items[0].literal);
    }
  }
}
