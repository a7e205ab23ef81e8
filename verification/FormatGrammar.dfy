/** The brace grammar of PEP 3101, section "Format Strings", as `string.Formatter().parse` reads it.

    A format string is cut into items: a run of literal text, followed by at most one replacement
    field.  A doubled brace ends the literal run with one brace and no field.  The generator yields
    items until the text ends or until it raises ValueError; both outcomes are kept in `Parsed`. */
module FormatGrammar {
  import opened Options

  datatype Field = Field(name: string, spec: string, conversion: Option<char>)

  datatype Item = Item(literal: string, field: Option<Field>)

  /** Items yielded before the end, and whether the end was reached without a ValueError. */
  datatype Parsed = Parsed(items: seq<Item>, ok: bool)

  predicate IsBrace(c: char) { c == '{' || c == '}' }

  predicate FieldStop(c: char) { c == '}' || c == ':' || c == '!' }

  /** Index of the first brace, or the length when there is none. */
  function LiteralEnd(s: string): (n: nat)
    ensures n <= |s|
    ensures forall i :: 0 <= i < n ==> !IsBrace(s[i])
    ensures n < |s| ==> IsBrace(s[n])
  {
    if s == "" || IsBrace(s[0]) then 0 else 1 + LiteralEnd(s[1..])
  }

  /** Index of the next `]` at or after i, or the length. */
  function BracketEnd(s: string, i: nat): (n: nat)
    requires i <= |s|
    ensures i <= n <= |s|
    decreases |s| - i
  {
    if i == |s| || s[i] == ']' then i else BracketEnd(s, i + 1)
  }

  /** Index at which a field name ends: `}`, `:` or `!`, where an index in brackets may hold any
      character.  None when an opening brace or the end of the text comes first. */
  function NameEnd(s: string, i: nat): (n: Option<nat>)
    requires i <= |s|
    ensures n.Some? ==> i <= n.value < |s| && FieldStop(s[n.value])
    decreases |s| - i
  {
    if i == |s| || s[i] == '{' then None
    else if FieldStop(s[i]) then Some(i)
    else if s[i] == '[' then NameEnd(s, BracketEnd(s, i + 1))
    else NameEnd(s, i + 1)
  }

  /** Index of the `}` that balances `depth` open braces. */
  function SpecEnd(s: string, i: nat, depth: nat): (n: Option<nat>)
    requires i <= |s| && depth > 0
    ensures n.Some? ==> i <= n.value < |s| && s[n.value] == '}'
    decreases |s| - i
  {
    if i == |s| then None
    else if s[i] == '}' && depth == 1 then Some(i)
    else SpecEnd(s, i + 1, if s[i] == '}' then depth - 1 else if s[i] == '{' then depth + 1 else depth)
  }

  datatype FieldResult = BadField | GoodField(field: Field, rest: string)

  function ParseSpec(s: string, name: string, conversion: Option<char>, start: nat): (r: FieldResult)
    requires start <= |s|
    ensures r.GoodField? ==> |r.rest| < |s|
  {
    match SpecEnd(s, start, 1)
    case None => BadField
    case Some(e) => GoodField(Field(name, s[start..e], conversion), s[e + 1..])
  }

  /** A replacement field, read from just after its opening brace. */
  function ParseField(s: string): (r: FieldResult)
    ensures r.GoodField? ==> |r.rest| < |s|
  {
    match NameEnd(s, 0)
    case None => BadField
    case Some(e) =>
      if s[e] == '}' then GoodField(Field(s[..e], "", None), s[e + 1..])
      else if s[e] == ':' then ParseSpec(s, s[..e], None, e + 1)
      else if e + 2 >= |s| then BadField
      else if s[e + 2] == '}' then GoodField(Field(s[..e], "", Some(s[e + 1])), s[e + 3..])
      else if s[e + 2] == ':' then ParseSpec(s, s[..e], Some(s[e + 1]), e + 3)
      else BadField
  }

  datatype Step = Raise | Yield(item: Item, rest: string)

  /** One step of the iterator. */
  function Next(s: string): (r: Step)
    requires s != ""
    ensures r.Yield? ==> |r.rest| < |s|
  {
    var n := LiteralEnd(s);
    if n == |s| then Yield(Item(s, None), "")
    else if n + 1 == |s| then Raise
    else if s[n + 1] == s[n] then Yield(Item(s[..n + 1], None), s[n + 2..])
    else if s[n] == '}' then Raise
    else match ParseField(s[n + 1..])
      case BadField => Raise
      case GoodField(f, rest) => Yield(Item(s[..n], Some(f)), rest)
  }

  function Parse(s: string): Parsed
    decreases |s|
  {
    if s == "" then Parsed([], true)
    else match Next(s)
      case Raise => Parsed([], false)
      case Yield(item, rest) =>
        var p := Parse(rest);
        Parsed([item] + p.items, p.ok)
  }

  /** The fields of a parse, in order. */
  function Fields(items: seq<Item>): seq<Field> {
    if items == [] then []
    else (if items[0].field.Some? then [items[0].field.value] else []) + Fields(items[1..])
  }

  /** Unescaped literal, with the field wrapped in braces again. */
  function ItemText(item: Item): string {
    item.literal + (if item.field.Some? then "{" + item.field.value.name + "}" else "")
  }

  function Reassemble(items: seq<Item>): string {
    if items == [] then "" else ItemText(items[0]) + Reassemble(items[1..])
  }

  /** A character put in front of the first literal of a parse. */
  function Prefixed(c: char, p: Parsed): Parsed {
    if p.items != [] then Parsed([p.items[0].(literal := [c] + p.items[0].literal)] + p.items[1..], p.ok)
    else if p.ok then Parsed([Item([c], None)], true)
    else p
  }

  lemma {:induction false} NextPlain(c: char, s: string)
    requires !IsBrace(c) && s != ""
    ensures Next([c] + s) == match Next(s)
                             case Raise => Raise
                             case Yield(item, rest) => Yield(item.(literal := [c] + item.literal), rest)
  {
    var t := [c] + s;
    var n := LiteralEnd(s);
    assert t[1..] == s;
    assert LiteralEnd(t) == 1 + n;
    assert t[..n + 1] == [c] + s[..n];
    if n + 1 < |s| {
      assert t[..n + 2] == [c] + s[..n + 1];
      assert t[n + 3..] == s[n + 2..];
      assert t[n + 2..] == s[n + 1..];
    }
  }

  lemma {:induction false} ParsePlain(c: char, s: string)
    requires !IsBrace(c)
    ensures Parse([c] + s) == Prefixed(c, Parse(s))
  {
    if s == "" {
      assert LiteralEnd([c]) == 1 + LiteralEnd([c][1..]);
      assert Next([c] + s) == Yield(Item([c], None), "");
    } else {
      NextPlain(c, s);
    }
  }

  lemma {:induction false} ParseDoubled(c: char, s: string)
    requires IsBrace(c)
    ensures Parse([c, c] + s) == Parsed([Item([c], None)] + Parse(s).items, Parse(s).ok)
  {
    var t := [c, c] + s;
    assert LiteralEnd(t) == 0;
    assert t[..1] == [c] && t[2..] == s;
  }

  lemma {:induction false} ReassembleCons(item: Item, items: seq<Item>)
    ensures Reassemble([item] + items) == ItemText(item) + Reassemble(items)
    ensures Fields([item] + items) == (if item.field.Some? then [item.field.value] else []) + Fields(items)
  {
    assert ([item] + items)[1..] == items;
  }

  lemma {:induction false} ReassemblePrefixed(c: char, p: Parsed)
    requires p.ok
    ensures Prefixed(c, p).ok
    ensures Reassemble(Prefixed(c, p).items) == [c] + Reassemble(p.items)
    ensures Fields(Prefixed(c, p).items) == Fields(p.items)
  {
    if p.items == [] {
      var q := [Item([c], None)];
      assert q[1..] == [];
    } else {
      var item := p.items[0].(literal := [c] + p.items[0].literal);
      assert ItemText(item) == [c] + ItemText(p.items[0]);
      ReassembleCons(item, p.items[1..]);
      assert [c] + (ItemText(p.items[0]) + Reassemble(p.items[1..])) == ItemText(item) + Reassemble(p.items[1..]);
    }
  }
}
