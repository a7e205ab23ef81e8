/** Validation of a prompt template before it is stored. */
module PromptValidator {
  import opened Sequences
  import opened Options
  import opened FormatGrammar
  import opened FormatPrinter
  import opened PromptTokens
  import opened PromptEscaper
  import opened PromptExact
  import opened Texts

  /** Unicode classes of the characters beyond ASCII: XID_Start and XID_Continue. */
  datatype CharClasses = CharClasses(start: char -> bool, rest: char -> bool)

  predicate IdStart(c: char, u: CharClasses) {
    if c as int < 128 then Letter(c) else u.start(c)
  }

  predicate IdContinue(c: char, u: CharClasses) {
    if c as int < 128 then Word(c) else u.rest(c)
  }

  /** `str.isidentifier` */
  predicate IsIdentifier(s: string, u: CharClasses) {
    s != "" && IdStart(s[0], u) && forall i :: 1 <= i < |s| ==> IdContinue(s[i], u)
  }

  /** `s.split(c)[0]` */
  function Before(s: string, c: char): string {
    if s == "" || s[0] == c then "" else [s[0]] + Before(s[1..], c)
  }

  function TopName(field: string): string { Before(Before(field, '.'), '[') }

  function UsedNames(fields: seq<Field>): set<string> {
    set i | 0 <= i < |fields| && fields[i].name != "" :: TopName(fields[i].name)
  }

  predicate HasOddField(fields: seq<Field>, u: CharClasses) {
    exists i :: 0 <= i < |fields| && fields[i].name != "" && !IsIdentifier(fields[i].name, u)
  }

  predicate NeedsEscape(content: string, u: CharClasses) {
    !Parse(content).ok || HasOddField(Fields(Parse(content).items), u)
  }

  datatype Verdict = Accepted(content: string) | EmptyContent | BadBraces | IllegalPlaceholders(names: set<string>)

  /** Fields a built-in template contributes: those read before its first syntax error. */
  function TemplateNames(template: string): set<string> {
    UsedNames(Fields(Parse(template).items))
  }

  /** `_allowed_placeholders`: the names in the built-in template of a code and in its
      `_with_context` variant, or None when neither exists. */
  function AllowedPlaceholders(base: Option<string>, withContext: Option<string>): Option<set<string>> {
    if base.None? && withContext.None? then None
    else Some((if base.Some? then TemplateNames(base.value) else {})
              + (if withContext.Some? then TemplateNames(withContext.value) else {}))
  }

  function Whitelist(allowed: Option<set<string>>): set<string> {
    if allowed.Some? then allowed.value else {}
  }

  function Judge(content: string, used: set<string>, allowed: Option<set<string>>): Verdict {
    var illegal := if allowed.Some? then set f | f in used && f != "" && f !in allowed.value else {};
    if illegal == {} then Accepted(content) else IllegalPlaceholders(illegal)
  }

  /** `_validate_prompt_template` */
  function Validate(content: string, allowed: Option<set<string>>, u: CharClasses): Verdict {
    if Blank(content) then EmptyContent
    else if !NeedsEscape(content, u) then
      Judge(content, UsedNames(Fields(Parse(content).items)), allowed)
    else
      var escaped := ThreePasses(content, Whitelist(allowed));
      var p := Parse(escaped);
      if !p.ok then BadBraces else Judge(escaped, UsedNames(Fields(p.items)), allowed)
  }

  // ---------- the validator itself ----------

  lemma {:induction false} FieldsConcat(a: seq<Item>, b: seq<Item>)
    ensures Fields(a + b) == Fields(a) + Fields(b)
  {
    if a == [] {
      assert a + b == b;
    } else {
      assert a + b == [a[0]] + (a[1..] + b);
      assert a == [a[0]] + a[1..];
      FieldsConcat(a[1..], b);
      ReassembleCons(a[0], a[1..] + b);
      ReassembleCons(a[0], a[1..]);
    }
  }

  predicate OddName(name: string, u: CharClasses) { name != "" && !IsIdentifier(name, u) }

  /** What one more item adds to a scan. */
  lemma ScanStep(seen: seq<Item>, item: Item, u: CharClasses)
    ensures var f, all := item.field, Fields(seen + [item]);
            UsedNames(all) == UsedNames(Fields(seen))
              + (if f.Some? && f.value.name != "" then {TopName(f.value.name)} else {})
            && (HasOddField(all, u) <==> HasOddField(Fields(seen), u) || (f.Some? && OddName(f.value.name, u)))
  {
    var before, all := Fields(seen), Fields(seen + [item]);
    FieldsConcat(seen, [item]);
    ReassembleCons(item, []);
    assert [item] + [] == [item];
    assert all == before + (if item.field.Some? then [item.field.value] else []);
    assert forall i :: 0 <= i < |before| ==> all[i] == before[i];
    if item.field.Some? {
      assert all[|before|] == item.field.value;
    }
  }

  /** One pass of the iterator over a template: names used, whether a field is no identifier, and
      whether the iterator came to its end without raising. */
  method ScanFields(content: string, u: CharClasses) returns (used: set<string>, odd: bool, ok: bool)
    ensures var p := Parse(content);
            used == UsedNames(Fields(p.items)) && odd == HasOddField(Fields(p.items), u) && ok == p.ok
  {
    used, odd, ok := {}, false, true;
    var rest := content;
    ghost var seen: seq<Item> := [];
    while rest != "" && ok
      invariant Parse(content).items == seen + (if ok then Parse(rest).items else [])
      invariant Parse(content).ok == (ok && Parse(rest).ok)
      invariant used == UsedNames(Fields(seen)) && odd == HasOddField(Fields(seen), u)
      decreases ok, |rest|
    {
      var step := Next(rest);
      if step.Raise? {
        ok := false;
      } else {
        Associate(seen, [step.item], Parse(step.rest).items);
        ScanStep(seen, step.item, u);
        if step.item.field.Some? && step.item.field.value.name != "" {
          var name := step.item.field.value.name;
          odd := odd || !IsIdentifier(name, u);
          used := used + {TopName(name)};
        }
        seen, rest := seen + [step.item], step.rest;
      }
    }
    assert seen + [] == seen;
  }

  method AllowedNames(base: Option<string>, withContext: Option<string>, u: CharClasses)
    returns (allowed: Option<set<string>>)
    ensures allowed == AllowedPlaceholders(base, withContext)
  {
    allowed := None;
    if base.Some? {
      var names, _, _ := ScanFields(base.value, u);
      allowed := Some(names);
      assert names + {} == names;
    }
    if withContext.Some? {
      var names, _, _ := ScanFields(withContext.value, u);
      allowed := Some((if allowed.Some? then allowed.value else {}) + names);
    }
  }

  /** `_validate_prompt_template` over the two built-in templates of the prompt code. */
  method ValidatePromptTemplate(base: Option<string>, withContext: Option<string>, content: string, u: CharClasses)
    returns (v: Verdict)
    ensures v == Validate(content, AllowedPlaceholders(base, withContext), u)
    ensures !v.BadBraces?
    ensures !Blank(content) && NeedsEscape(content, u) ==> v.Accepted?
  {
    var allowed := AllowedNames(base, withContext, u);
    EscapeBranchAccepts(content, allowed, u);
    if forall i :: 0 <= i < |content| ==> IsSpace(content[i]) {
      return EmptyContent;
    }
    var kept := content;
    var used, odd, ok := ScanFields(content, u);
    if odd || !ok {
      kept := AutoEscapeBraces(content, if allowed.Some? then allowed.value else {});
      used, odd, ok := ScanFields(kept, u);
      if !ok {
        return BadBraces;
      }
    }
    var illegal := if allowed.Some? then set f | f in used && f != "" && f !in allowed.value else {};
    v := if illegal == {} then Accepted(kept) else IllegalPlaceholders(illegal);
  }

  // ---------- names of kept placeholders ----------

  lemma {:induction false} BeforeNone(w: string, c: char, s: string)
    requires forall i :: 0 <= i < |w| ==> w[i] != c
    ensures Before(w + s, c) == w + Before(s, c)
  {
    if w == "" {
      assert w + s == s;
    } else {
      assert (w + s)[1..] == w[1..] + s;
      BeforeNone(w[1..], c, s);
      assert w == [w[0]] + w[1..];
      Associate([w[0]], w[1..], Before(s, c));
    }
  }

  lemma TopNameOf(ph: Placeholder)
    requires ph.Valid()
    ensures TopName(ph.Inner()) == ph.name
  {
    var x := SuffixesText(ph.suffixes);
    assert ph.suffixes != [] ==> x[0] == SuffixText(ph.suffixes[0])[0];
    BeforeNone(ph.name, '.', x);
    var y := Before(x, '.');
    assert y == "" || y[0] == '[';
    BeforeNone(ph.name, '[', y);
    assert ph.name + "" == ph.name;
  }

  lemma PlainIffIdentifier(ph: Placeholder, u: CharClasses)
    requires ph.Valid()
    ensures IsIdentifier(ph.Inner(), u) <==> ph.Plain()
  {
    if ph.Plain() {
      assert ph.Inner() == ph.name;
    } else {
      var c := SuffixText(ph.suffixes[0])[0];
      assert ph.Inner()[|ph.name|] == c;
    }
  }

  lemma NamesOfKept(phs: seq<Placeholder>, allowed: set<string>)
    requires forall i :: 0 <= i < |phs| ==> phs[i].Valid() && phs[i].name in allowed
    ensures UsedNames(FieldsOf(phs)) <= allowed
  {
    forall i | 0 <= i < |phs| ensures TopName(FieldsOf(phs)[i].name) in allowed { TopNameOf(phs[i]); }
  }

  lemma OddIffNotPlain(phs: seq<Placeholder>, u: CharClasses)
    requires forall i :: 0 <= i < |phs| ==> phs[i].Valid()
    ensures HasOddField(FieldsOf(phs), u) <==> !AllPlain(phs)
  {
    forall i | 0 <= i < |phs|
      ensures FieldsOf(phs)[i].name != "" && (IsIdentifier(FieldsOf(phs)[i].name, u) <==> phs[i].Plain())
    {
      PlainIffIdentifier(phs[i], u);
    }
  }

  /** Escaped text parses, and every name in it is allowed. */
  lemma FormIsGood(s: string, allowed: set<string>)
    requires EscapedForm(s, allowed)
    ensures Parse(s).ok && UsedNames(Fields(Parse(s).items)) <= allowed
  {
    var ts :| WellFormed(ts) && Within(ts, allowed) && s == Escaped(ts);
    EscapedParsesBack(ts);
    KeptShape(ts, allowed);
    NamesOfKept(Kept(ts), allowed);
  }

  // ---------- the validator on text as it is written ----------

  /** A field with a name that is no identifier is written. */
  predicate WritesOdd(ps: seq<Piece>, u: CharClasses) {
    exists i :: 0 <= i < |ps| && ps[i].Sub? && ps[i].name != "" && !IsIdentifier(ps[i].name, u)
  }

  /** The names a written template uses. */
  function WrittenNames(ps: seq<Piece>): set<string> {
    set i | 0 <= i < |ps| && ps[i].Sub? && ps[i].name != "" :: TopName(ps[i].name)
  }

  lemma WrittenFields(content: string, ps: seq<Piece>, u: CharClasses)
    requires Printed(content, ps)
    ensures HasOddField(Fields(Parse(content).items), u) <==> WritesOdd(ps, u)
    ensures UsedNames(Fields(Parse(content).items)) == WrittenNames(ps)
  {
    var fs := Fields(Parse(content).items);
    PrintParses(ps);
    forall i | 0 <= i < |fs| ensures exists k :: 0 <= k < |ps| && ps[k].Sub? && FieldOf(ps[k]) == fs[i] {
      FieldsAreShown(Parse(content).items, fs[i]);
      var k :| 0 <= k < |ps| && ViewsOf(ps)[k] == Shown(fs[i]);
    }
    forall k | 0 <= k < |ps| && ps[k].Sub? ensures FieldOf(ps[k]) in fs {
      FieldsAreShown(Parse(content).items, FieldOf(ps[k]));
      assert ViewsOf(ps)[k] == Shown(FieldOf(ps[k]));
    }
  }

  /** The escape branch is taken exactly when the content is no text of characters and fields, or when a field of it
      has a name that is no identifier. */
  lemma NeedsEscapeIff(content: string, u: CharClasses)
    ensures NeedsEscape(content, u) <==> forall ps :: Printed(content, ps) ==> WritesOdd(ps, u)
  {
    ParsesIffPrinted(content);
    forall ps | Printed(content, ps) ensures NeedsEscape(content, u) <==> WritesOdd(ps, u) {
      WrittenFields(content, ps, u);
    }
  }

  /** A template whose field names are identifiers, whatever their conversions and specifiers, is never changed: it is
      accepted when the names are allowed, and refused for exactly those that are not. */
  lemma WrittenVerdict(content: string, ps: seq<Piece>, allowed: Option<set<string>>, u: CharClasses)
    requires Printed(content, ps) && !Blank(content) && !WritesOdd(ps, u)
    ensures var illegal := if allowed.None? then {} else WrittenNames(ps) - allowed.value;
            Validate(content, allowed, u) == if illegal == {} then Accepted(content) else IllegalPlaceholders(illegal)
    ensures forall i :: 0 <= i < |ps| && ps[i].Sub? && ps[i].name != "" ==> TopName(ps[i].name) == ps[i].name
  {
    PrintParses(ps);
    WrittenFields(content, ps, u);
    forall i | 0 <= i < |ps| && ps[i].Sub? && ps[i].name != "" ensures TopName(ps[i].name) == ps[i].name {
      IdentifierIsTop(ps[i].name, u);
    }
  }

  /** The allowed names are those written in the two built-in templates, and there are none without a template. */
  lemma AllowedWritten(base: Option<seq<Piece>>, withContext: Option<seq<Piece>>)
    requires base.Some? ==> WellFormedPieces(base.value)
    requires withContext.Some? ==> WellFormedPieces(withContext.value)
    ensures var text := (t: Option<seq<Piece>>) => if t.Some? then Some(Print(t.value)) else None;
            var allowed := AllowedPlaceholders(text(base), text(withContext));
            && (allowed.None? <==> base.None? && withContext.None?)
            && (allowed.Some? ==>
                  forall name :: name in allowed.value <==>
                                   || (base.Some? && name in WrittenNames(base.value))
                                   || (withContext.Some? && name in WrittenNames(withContext.value)))
  {
    var u := CharClasses(c => true, c => true);
    if base.Some? { WrittenFields(Print(base.value), base.value, u); }
    if withContext.Some? { WrittenFields(Print(withContext.value), withContext.value, u); }
  }

  lemma IdentifierIsTop(name: string, u: CharClasses)
    requires IsIdentifier(name, u)
    ensures TopName(name) == name
  {
    BeforeNone(name, '.', "");
    BeforeNone(name, '[', "");
    assert name + "" == name;
  }

  // ---------- what the validator guarantees ----------

  /** The escape branch accepts all content that is not blank. */
  lemma EscapeBranchAccepts(content: string, allowed: Option<set<string>>, u: CharClasses)
    ensures !Blank(content) && NeedsEscape(content, u) ==>
      Validate(content, allowed, u) == Accepted(ThreePasses(content, Whitelist(allowed)))
  {
    ThreePassesForm(content, Whitelist(allowed));
    FormIsGood(ThreePasses(content, Whitelist(allowed)), Whitelist(allowed));
  }

  /** What is accepted parses, and uses allowed names only. */
  lemma AcceptedIsSound(content: string, allowed: Option<set<string>>, u: CharClasses)
    requires Validate(content, allowed, u).Accepted?
    ensures var p := Parse(Validate(content, allowed, u).content);
            p.ok && (allowed.Some? ==> UsedNames(Fields(p.items)) <= allowed.value + {""})
  {
    if NeedsEscape(content, u) {
      EscapeBranchAccepts(content, allowed, u);
      ThreePassesForm(content, Whitelist(allowed));
      FormIsGood(ThreePasses(content, Whitelist(allowed)), Whitelist(allowed));
    }
  }

  /** A built-in template with identifier fields passes its own check unchanged. */
  lemma BuiltInAccepted(base: Option<string>, withContext: Option<string>, template: string, u: CharClasses)
    requires base == Some(template) || withContext == Some(template)
    requires !Blank(template) && !NeedsEscape(template, u)
    ensures Validate(template, AllowedPlaceholders(base, withContext), u) == Accepted(template)
  {
    assert TemplateNames(template) <= AllowedPlaceholders(base, withContext).value;
  }

  lemma {:induction false} BlankEscaped(ts: seq<Token>)
    requires Blank(Escaped(ts))
    ensures Blank(Flatten(ts))
  {
    if ts != [] {
      var e, us := EscapedToken(ts[0]), Escaped(ts[1..]);
      assert forall i :: 0 <= i < |e| ==> (e + us)[i] == e[i];
      assert forall i :: 0 <= i < |us| ==> (e + us)[i + |e|] == us[i];
      BlankEscaped(ts[1..]);
    }
  }

  lemma {:induction false} EscapedSentinelFree(ts: seq<Token>)
    requires WellFormed(ts) && SentinelFree(Flatten(ts))
    ensures SentinelFree(Escaped(ts))
  {
    if ts != [] {
      var e, us := EscapedToken(ts[0]), ts[1..];
      SentinelFreeTail(ts[0], us);
      EscapedSentinelFree(us);
      var s, m := Escaped(ts), Escaped(us);
      forall i | 0 <= i && i + 3 <= |s| ensures !(s[i] == 'P' && s[i + 1] == 'H' && s[i + 2] == NUL) {
        if i >= |e| {
          assert s[i] == m[i - |e|] && s[i + 1] == m[i + 1 - |e|] && s[i + 2] == m[i + 2 - |e|];
        } else if ts[0].Hole? {
          TextNulFree(ts[0].ph);
          assert e[|e| - 1] == '}';
          assert s[i] == e[i];
        } else if s[i] == 'P' && s[i + 1] == 'H' && s[i + 2] == NUL {
          SentinelSplit(ts);
        }
      }
    }
  }

  lemma SentinelSplit(ts: seq<Token>)
    requires WellFormed(ts) && ts != [] && ts[0].Ch? && |Escaped(ts)| >= 3
    requires Escaped(ts)[0] == 'P' && Escaped(ts)[1] == 'H' && Escaped(ts)[2] == NUL
    ensures !SentinelFree(Flatten(ts))
  {
    MixedAll(ts, 0, |Kept(ts)|);
    MixedHead(ts, 0, |Kept(ts)|, 'P');
    var us := ts[1..];
    MixedAll(us, 0, |Kept(ts)|);
    assert Escaped(us)[0] == Escaped(ts)[1] && Escaped(us)[1] == Escaped(ts)[2];
    MixedHead(us, 0, |Kept(ts)|, 'H');
    var vs := us[1..];
    assert Escaped(vs)[0] == Escaped(us)[1];
    assert EscapedToken(vs[0])[0] == NUL;
    SentinelAtFront(Flatten(vs[1..]));
  }

  /** Escaping a second time leaves text alone exactly when the first time met no literal brace. */
  lemma EscapeTwiceIff(content: string, names: set<string>)
    requires !Collision(content, names)
    ensures var ts := Tokens(content, names);
            && !Collision(Escaped(ts), names) && (SentinelFree(content) ==> SentinelFree(Escaped(ts)))
            && (ThreePasses(Escaped(ts), names) == Escaped(ts) <==> LiteralBraces(ts) == 0)
  {
    var ts := Tokens(content, names);
    TokensSound(content, names);
    if SentinelFree(content) { EscapedSentinelFree(ts); }
    EscapedCollisionIff(content, names);
    ThreePassesIff(Escaped(ts), names);
    TokensOfEscaped(content, names);
    EscapedTokensShape(ts);
    EscapedLength(EscapedTokens(ts));
    TokensSound(Escaped(ts), names);
  }

  lemma VerdictOf(s: string, text: string, phs: seq<Placeholder>, names: set<string>, u: CharClasses)
    requires ParsesTo(s, text, FieldsOf(phs))
    requires forall i :: 0 <= i < |phs| ==> phs[i].Valid() && phs[i].name in names
    ensures UsedNames(Fields(Parse(s).items)) <= names
    ensures NeedsEscape(s, u) <==> !AllPlain(phs)
  {
    OddIffNotPlain(phs, u);
    NamesOfKept(phs, names);
  }

  lemma EscapedNotBlank(content: string, names: set<string>)
    requires !Blank(content)
    ensures !Blank(Escaped(Tokens(content, names)))
  {
    TokensSound(content, names);
    if Blank(Escaped(Tokens(content, names))) { BlankEscaped(Tokens(content, names)); }
  }

  lemma RevalidateStored(stored: string, allowed: Option<set<string>>, u: CharClasses)
    requires !Blank(stored) && Parse(stored).ok
    requires UsedNames(Fields(Parse(stored).items)) <= Whitelist(allowed)
    ensures Validate(stored, allowed, u) == Accepted(stored)
      <==> !NeedsEscape(stored, u) || ThreePasses(stored, Whitelist(allowed)) == stored
  {
    EscapeBranchAccepts(stored, allowed, u);
  }

  /** The stored form of content that takes the escape branch. */
  lemma StoredForm(content: string, allowed: Option<set<string>>, u: CharClasses)
    requires !Blank(content) && NeedsEscape(content, u) && !Collision(content, Whitelist(allowed))
    ensures Validate(content, allowed, u) == Accepted(Escaped(Tokens(content, Whitelist(allowed))))
  {
    EscapeBranchAccepts(content, allowed, u);
    ThreePassesIff(content, Whitelist(allowed));
  }

  predicate AllPlain(phs: seq<Placeholder>) {
    forall i :: 0 <= i < |phs| ==> phs[i].Plain()
  }

  /** Validating an escaped result again leaves it alone exactly when every kept placeholder is a
      plain identifier, or every brace of the content belongs to a kept placeholder. */
  lemma RevalidationIff(content: string, allowed: Option<set<string>>, u: CharClasses, stored: string)
    requires !Blank(content) && NeedsEscape(content, u) && !Collision(content, Whitelist(allowed))
    requires Validate(content, allowed, u) == Accepted(stored)
    ensures var ts := Tokens(content, Whitelist(allowed));
            Validate(stored, allowed, u) == Accepted(stored) <==> AllPlain(Kept(ts)) || LiteralBraces(ts) == 0
  {
    var names := Whitelist(allowed);
    var ts := Tokens(content, names);
    StoredForm(content, allowed, u);
    TokensSound(content, names);
    KeptShape(ts, names);
    EscapedParsesBack(ts);
    VerdictOf(stored, content, Kept(ts), names, u);
    EscapedNotBlank(content, names);
    EscapeTwiceIff(content, names);
    RevalidateStored(stored, allowed, u);
  }

  /** Without an escape nothing is changed, so validating again changes nothing either. */
  lemma UnescapedIsStable(content: string, allowed: Option<set<string>>, u: CharClasses)
    requires !NeedsEscape(content, u) && Validate(content, allowed, u).Accepted?
    ensures Validate(content, allowed, u) == Accepted(content)
  {
  }

  /** An attribute placeholder beside literal braces: each validation doubles the braces again. */
  lemma RevalidationGrows(u: CharClasses)
    ensures Validate("{a.b}" + "{", Some({"a"}), u) == Accepted("{a.b}" + ("{" + "{"))
    ensures Validate("{a.b}" + "{{", Some({"a"}), u) == Accepted("{a.b}" + ("{{" + "{{"))
  {
    OddHoleGrows("{", u);
    OddHoleGrows("{{", u);
  }

  lemma OddHoleGrows(s: string, u: CharClasses)
    requires s == "{" || s == "{{"
    ensures Validate("{a.b}" + s, Some({"a"}), u) == Accepted("{a.b}" + (s + s))
  {
    var names, ph, t := {"a"}, Placeholder("a", [Attribute("b")]), "{a.b}" + s;
    DottedText(ph);
    PlainText(s);
    OddHole(ph, s, u);
    HoleTokens(ph, s, names);
    EscapeGives(t, names, u);
  }

  lemma PlainText(s: string)
    requires s == "{" || s == "{{"
    ensures !Blank("{a.b}" + s) && SentinelFree("{a.b}" + s)
  {
    var t := "{a.b}" + s;
    assert !IsSpace(t[0]);
    NulFreeIsSentinelFree(t);
  }

  lemma EscapeGives(t: string, names: set<string>, u: CharClasses)
    requires !Blank(t) && NeedsEscape(t, u) && SentinelFree(t)
    ensures Validate(t, Some(names), u) == Accepted(Escaped(Tokens(t, names)))
  {
    EscapeBranchAccepts(t, Some(names), u);
    ThreePassesIsOnePass(t, names);
  }

  lemma DottedText(ph: Placeholder)
    requires ph == Placeholder("a", [Attribute("b")])
    ensures ph.Valid() && ph.Text() == "{a.b}"
  {
    assert [Attribute("b")][1..] == [];
    assert SuffixText(Attribute("b")) == ".b";
  }

  lemma OddHole(ph: Placeholder, s: string, u: CharClasses)
    requires ph.Valid() && !ph.Plain()
    ensures NeedsEscape(ph.Text() + s, u)
  {
    ParseHole(ph, s);
    PlainIffIdentifier(ph, u);
    var item := Item("", Some(HoleField(ph)));
    ReassembleCons(item, Parse(s).items);
    var fs := Fields([item] + Parse(s).items);
    assert fs[0] == HoleField(ph);
  }

  lemma BraceTokens(names: set<string>)
    ensures Escaped(Tokens("{", names)) == "{{" && Escaped(Tokens("{{", names)) == "{{{{"
  {
    TokensBrace("", names);
    TokensBrace("{", names);
    assert "{" + "" == "{" && "{" + "{" == "{{" && "{{" + "{{" == "{{{{" && "{{" + "" == "{{";
    FlattenCons(Ch('{'), Tokens("", names));
    FlattenCons(Ch('{'), Tokens("{", names));
  }

  lemma HoleTokens(ph: Placeholder, s: string, names: set<string>)
    requires ph.Valid() && ph.name in names && (s == "{" || s == "{{")
    ensures Escaped(Tokens(ph.Text() + s, names)) == ph.Text() + (s + s)
  {
    PlaceholderComplete(ph, s);
    FlattenCons(Hole(ph), Tokens(s, names));
    BraceTokens(names);
    assert "{" + "{" == "{{" && "{{" + "{{" == "{{{{";
  }
}
