/** Planning the rewrite of the one `model:` line of a configuration text.

    What the text means is asked of a YAML reader; where the value stands is found by a line pattern;
    and the changed text is read again before the plan is given out. */
module ModelRewrite {
  import opened Options
  import opened Texts

  /** What the reader says of a text: `Model` when the top level is a mapping with a string under `model`. */
  datatype Yaml = ParseError | NotMapping | NoStringModel | Model(value: string)

  type Reader = string -> Yaml

  datatype Plan = NoChange | Unsupported | Rewrite(oldValue: string, newValue: string, text: string)

  datatype Request = Request(fromValues: seq<string>, to: string, matchAny: bool)

  // ---------- the line pattern ----------

  /** Positions of a matched line: its start, where the quoted value begins and ends, and its end. */
  datatype Match = Match(start: nat, value: nat, quote: string, tail: nat, end: nat)

  predicate Space(c: char) { c == ' ' || c == '\t' }

  function SkipSpaces(t: string, i: nat): (j: nat)
    requires i <= |t|
    ensures i <= j <= |t| && (j < |t| ==> !Space(t[j]))
    decreases |t| - i
  {
    if i < |t| && Space(t[i]) then SkipSpaces(t, i + 1) else i
  }

  function LineEnd(t: string, i: nat): (j: nat)
    requires i <= |t|
    ensures i <= j <= |t|
    decreases |t| - i
  {
    if i < |t| && t[i] != '\n' then LineEnd(t, i + 1) else i
  }

  predicate At(t: string, i: nat, w: string) { i + |w| <= |t| && t[i..i + |w|] == w }

  predicate LineStart(t: string, i: nat) { i == 0 || (i <= |t| && t[i - 1] == '\n') }

  function MatchPrefix(t: string, i: nat): (c: Option<nat>)
    requires i <= |t|
    ensures c.Some? ==> i <= c.value <= |t|
  {
    var a := SkipSpaces(t, i);
    if !At(t, a, "model") then None
    else
      var b := SkipSpaces(t, a + 5);
      if !At(t, b, ":") then None else Some(SkipSpaces(t, b + 1))
  }

  function MatchTail(t: string, i: nat): (e: Option<nat>)
    requires i <= |t|
    ensures e.Some? ==> i <= e.value <= |t|
  {
    var j := SkipSpaces(t, i);
    if j == |t| || t[j] == '\n' then Some(j)
    else if t[j] == '#' then Some(LineEnd(t, j))
    else None
  }

  function Quoted(q: string, v: string): string { q + v + q }

  function MatchQuoted(t: string, v: string, i: nat, c: nat, q: string): Option<Match> {
    if !At(t, c, Quoted(q, v)) then None
    else
      var tail := c + |Quoted(q, v)|;
      var e := MatchTail(t, tail);
      if e.None? then None else Some(Match(i, c, q, tail, e.value))
  }

  predicate QuoteMark(c: char) { c == '"' || c == '\'' }

  /** The pattern tried at one position: a quote mark is first taken as the opening quote. */
  function MatchAt(t: string, v: string, i: nat): Option<Match>
    requires i <= |t|
  {
    if !LineStart(t, i) then None
    else
      var c := MatchPrefix(t, i);
      if c.None? then None
      else
        var first := if c.value < |t| && QuoteMark(t[c.value]) then MatchQuoted(t, v, i, c.value, [t[c.value]]) else None;
        if first.Some? then first else MatchQuoted(t, v, i, c.value, "")
  }

  /** `finditer` from a position on: leftmost matches that do not overlap. */
  function FindAll(t: string, v: string, i: nat): seq<Match>
    requires v != ""
    decreases |t| - i
  {
    if i > |t| then []
    else
      var m := MatchAt(t, v, i);
      if m.None? then FindAll(t, v, i + 1)
      else
        assert m.value.end > i by { MatchIsLine(t, v, i); }
        [m.value] + FindAll(t, v, m.value.end)
  }

  // ---------- what the pattern means ----------

  predicate Spaces(t: string, i: nat, j: nat) { i <= j <= |t| && forall k :: i <= k < j ==> Space(t[k]) }

  predicate OneLine(t: string, i: nat, j: nat) { i <= j <= |t| && forall k :: i <= k < j ==> t[k] != '\n' }

  predicate LineStop(t: string, i: nat) { i == |t| || (i < |t| && t[i] == '\n') }

  ghost predicate IsPrefix(t: string, i: nat, c: nat) {
    exists a: nat, b: nat ::
      Spaces(t, i, a) && At(t, a, "model") && Spaces(t, a + 5, b) && At(t, b, ":") && Spaces(t, b + 1, c)
  }

  ghost predicate IsTail(t: string, i: nat, e: nat) {
    LineStop(t, e) && exists c: nat :: Spaces(t, i, c) && c <= e && (c == e || (t[c] == '#' && OneLine(t, c, e)))
  }

  predicate IsQuote(q: string) { q == "" || q == "\"" || q == "'" }

  /** A whole line `model: value`, perhaps quoted, perhaps with a comment behind it. */
  ghost predicate IsModelLine(t: string, v: string, m: Match) {
    && LineStart(t, m.start) && IsPrefix(t, m.start, m.value)
    && IsQuote(m.quote) && At(t, m.value, Quoted(m.quote, v)) && m.tail == m.value + |Quoted(m.quote, v)|
    && IsTail(t, m.tail, m.end)
  }

  /** Values as the planner looks for them: not empty, no white space at the ends. */
  predicate Trimmed(v: string) { v != "" && !IsSpace(v[0]) && !IsSpace(v[|v| - 1]) }

  lemma {:induction false} SkipSpacesIs(t: string, i: nat, j: nat)
    requires i <= |t|
    ensures SkipSpaces(t, i) == j <==> Spaces(t, i, j) && (j == |t| || !Space(t[j]))
    decreases |t| - i
  {
    if i < |t| && Space(t[i]) {
      SkipSpacesIs(t, i + 1, j);
    }
  }

  lemma {:induction false} LineEndIs(t: string, i: nat, j: nat)
    requires i <= |t|
    ensures LineEnd(t, i) == j <==> OneLine(t, i, j) && LineStop(t, j)
    decreases |t| - i
  {
    if i < |t| && t[i] != '\n' {
      LineEndIs(t, i + 1, j);
    }
  }

  lemma MatchPrefixIs(t: string, i: nat, c: nat)
    requires i <= |t| && (c < |t| ==> !Space(t[c]))
    ensures MatchPrefix(t, i) == Some(c) <==> IsPrefix(t, i, c)
  {
    if MatchPrefix(t, i) == Some(c) {
      PrefixSound(t, i);
    }
    if IsPrefix(t, i, c) {
      var a: nat, b: nat :| Spaces(t, i, a) && At(t, a, "model") && Spaces(t, a + 5, b) && At(t, b, ":") && Spaces(t, b + 1, c);
      PrefixComplete(t, i, a, b, c);
    }
  }

  lemma PrefixComplete(t: string, i: nat, a: nat, b: nat, c: nat)
    requires i <= |t| && (c < |t| ==> !Space(t[c]))
    requires Spaces(t, i, a) && At(t, a, "model") && Spaces(t, a + 5, b) && At(t, b, ":") && Spaces(t, b + 1, c)
    ensures MatchPrefix(t, i) == Some(c)
  {
    assert t[a] == t[a..a + 5][0] && t[b] == t[b..b + 1][0];
    SkipSpacesIs(t, i, a);
    SkipSpacesIs(t, a + 5, b);
    SkipSpacesIs(t, b + 1, c);
  }

  lemma PrefixSound(t: string, i: nat)
    requires i <= |t| && MatchPrefix(t, i).Some?
    ensures IsPrefix(t, i, MatchPrefix(t, i).value)
  {
    var a := SkipSpaces(t, i);
    var b := SkipSpaces(t, a + 5);
    SkipSpacesIs(t, i, a);
    SkipSpacesIs(t, a + 5, b);
    SkipSpacesIs(t, b + 1, SkipSpaces(t, b + 1));
  }

  lemma MatchTailIs(t: string, i: nat, e: nat)
    requires i <= |t|
    ensures MatchTail(t, i) == Some(e) <==> IsTail(t, i, e)
  {
    var j := SkipSpaces(t, i);
    SkipSpacesIs(t, i, j);
    LineEndIs(t, j, e);
    if IsTail(t, i, e) {
      var c: nat :| Spaces(t, i, c) && c <= e && (c == e || (t[c] == '#' && OneLine(t, c, e)));
      SkipSpacesIs(t, i, c);
    }
  }

  /** What is found is a model line. */
  lemma MatchIsLine(t: string, v: string, i: nat)
    requires i <= |t| && v != "" && MatchAt(t, v, i).Some?
    ensures var m := MatchAt(t, v, i).value; IsModelLine(t, v, m) && m.start == i && m.end > i
  {
    PrefixSound(t, i);
    QuotedIsLine(t, v, MatchAt(t, v, i).value);
  }

  lemma QuotedIsLine(t: string, v: string, m: Match)
    requires v != "" && LineStart(t, m.start) && IsPrefix(t, m.start, m.value) && m.value <= |t| && IsQuote(m.quote)
    requires MatchQuoted(t, v, m.start, m.value, m.quote) == Some(m)
    ensures IsModelLine(t, v, m) && m.end > m.start
  {
    MatchTailIs(t, m.tail, m.end);
    PrefixMoves(t, t, m.start, m.value);
  }

  /** A model line is found where it starts, with the same reading when the quotes agree. */
  lemma LineIsMatched(t: string, v: string, m: Match)
    requires Trimmed(v) && IsModelLine(t, v, m)
    ensures m.start <= |t| && MatchAt(t, v, m.start).Some?
    ensures MatchAt(t, v, m.start).value.quote == m.quote ==> MatchAt(t, v, m.start).value == m
    ensures m.quote != "" || !QuoteMark(v[0]) ==> MatchAt(t, v, m.start).value.quote == m.quote
  {
    var q := m.quote;
    assert Quoted(q, v)[0] == t[m.value];
    assert !Space(t[m.value]);
    MatchPrefixIs(t, m.start, m.value);
    MatchTailIs(t, m.tail, m.end);
    assert MatchQuoted(t, v, m.start, m.value, q) == Some(m);
  }

  /** A match lies within one line when the value does. */
  lemma MatchOneLine(t: string, v: string, m: Match)
    requires IsModelLine(t, v, m) && OneLine(v, 0, |v|)
    ensures OneLine(t, m.start, m.end)
  {
    var a: nat, b: nat :| Spaces(t, m.start, a) && At(t, a, "model") && Spaces(t, a + 5, b) && At(t, b, ":") && Spaces(t, b + 1, m.value);
    var c: nat :| Spaces(t, m.tail, c) && c <= m.end && (c == m.end || (t[c] == '#' && OneLine(t, c, m.end)));
    WordOneLine(t, a, "model");
    WordOneLine(t, b, ":");
    WordOneLine(t, m.value, Quoted(m.quote, v));
  }

  lemma WordOneLine(t: string, i: nat, w: string)
    requires At(t, i, w) && OneLine(w, 0, |w|)
    ensures OneLine(t, i, i + |w|)
  {
    assert forall k :: i <= k < i + |w| ==> t[k] == t[i..i + |w|][k - i];
  }

  // ---------- all matches ----------

  /** Model lines from a position on, one behind the other. */
  ghost predicate LinesFrom(t: string, v: string, ms: seq<Match>, i: nat) {
    ms != [] ==>
      IsModelLine(t, v, ms[0]) && i <= ms[0].start < ms[0].end && LinesFrom(t, v, ms[1..], ms[0].end)
  }

  lemma LinesEarlier(t: string, v: string, ms: seq<Match>, i: nat, j: nat)
    requires LinesFrom(t, v, ms, i) && j <= i
    ensures LinesFrom(t, v, ms, j)
  {
  }

  lemma LinesCons(t: string, v: string, m: Match, rest: seq<Match>)
    requires IsModelLine(t, v, m) && m.end > m.start && LinesFrom(t, v, rest, m.end)
    ensures LinesFrom(t, v, [m] + rest, m.start)
  {
    assert ([m] + rest)[1..] == rest;
  }

  lemma {:induction false} LineAt(t: string, v: string, ms: seq<Match>, i: nat, k: nat)
    requires LinesFrom(t, v, ms, i) && k < |ms|
    ensures IsModelLine(t, v, ms[k]) && ms[k].start >= i && (k > 0 ==> ms[k].start > ms[0].start)
  {
    if k > 0 {
      LineAt(t, v, ms[1..], ms[0].end, k - 1);
    }
  }

  lemma {:induction false} FoundAreLines(t: string, v: string, i: nat)
    requires v != ""
    ensures LinesFrom(t, v, FindAll(t, v, i), i)
    decreases |t| - i
  {
    if i <= |t| {
      var m := MatchAt(t, v, i);
      if m.None? {
        FoundAreLines(t, v, i + 1);
        LinesEarlier(t, v, FindAll(t, v, i + 1), i + 1, i);
      } else {
        MatchIsLine(t, v, i);
        FoundAreLines(t, v, m.value.end);
        LinesCons(t, v, m.value, FindAll(t, v, m.value.end));
      }
    }
  }

  /** The line starts at a match or inside one. */
  predicate Covered(ms: seq<Match>, start: nat) {
    exists k :: 0 <= k < |ms| && ms[k].start <= start && (ms[k].start == start || start < ms[k].end)
  }

  lemma CoveredCons(m: Match, rest: seq<Match>, start: nat)
    requires Covered(rest, start) || (m.start <= start < m.end)
    ensures Covered([m] + rest, start)
  {
    if Covered(rest, start) {
      var k :| 0 <= k < |rest| && rest[k].start <= start && (rest[k].start == start || start < rest[k].end);
      assert ([m] + rest)[k + 1] == rest[k];
    } else {
      assert ([m] + rest)[0] == m;
    }
  }

  lemma {:induction false} LinesAreFound(t: string, v: string, i: nat, m: Match)
    requires Trimmed(v) && IsModelLine(t, v, m) && m.start >= i
    ensures Covered(FindAll(t, v, i), m.start)
    decreases |t| - i
  {
    var here := MatchAt(t, v, i);
    assert m.start <= |t| && (m.start == i ==> here.Some?) by { LineIsMatched(t, v, m); }
    if here.None? {
      LinesAreFound(t, v, i + 1, m);
    } else {
      MatchIsLine(t, v, i);
      if m.start >= here.value.end {
        LinesAreFound(t, v, here.value.end, m);
      }
      CoveredCons(here.value, FindAll(t, v, here.value.end), m.start);
    }
  }

  predicate StartsAt(ms: seq<Match>, start: nat) { exists k :: 0 <= k < |ms| && ms[k].start == start }

  /** A one-line value is found at exactly the lines that are model lines of it. */
  lemma FoundIff(t: string, v: string, start: nat)
    requires Trimmed(v) && OneLine(v, 0, |v|)
    ensures StartsAt(FindAll(t, v, 0), start) <==> exists m :: IsModelLine(t, v, m) && m.start == start
  {
    var ms := FindAll(t, v, 0);
    FoundAreLines(t, v, 0);
    if StartsAt(ms, start) {
      var k :| 0 <= k < |ms| && ms[k].start == start;
      LineAt(t, v, ms, 0, k);
    }
    if m :| IsModelLine(t, v, m) && m.start == start {
      LinesAreFound(t, v, 0, m);
      var k :| 0 <= k < |ms| && ms[k].start <= start && (ms[k].start == start || start < ms[k].end);
      LineAt(t, v, ms, 0, k);
      MatchOneLine(t, v, ms[k]);
      assert ms[k].start < start ==> t[start - 1] == '\n';
    }
  }

  ghost predicate OnlyLine(t: string, v: string, start: nat) {
    && (exists m :: IsModelLine(t, v, m) && m.start == start)
    && forall m :: IsModelLine(t, v, m) ==> m.start == start
  }

  /** There is exactly one match if and only if there is exactly one model line. */
  lemma OneMatchIff(t: string, v: string)
    requires Trimmed(v) && OneLine(v, 0, |v|)
    ensures |FindAll(t, v, 0)| == 1 <==> exists start :: OnlyLine(t, v, start)
  {
    var ms := FindAll(t, v, 0);
    FoundAreLines(t, v, 0);
    if |ms| == 1 {
      forall m | IsModelLine(t, v, m) ensures m.start == ms[0].start {
        FoundIff(t, v, m.start);
      }
      LineAt(t, v, ms, 0, 0);
      assert OnlyLine(t, v, ms[0].start);
    }
    if start :| OnlyLine(t, v, start) {
      FoundIff(t, v, start);
      if |ms| > 1 {
        LineAt(t, v, ms, 0, 0);
        LineAt(t, v, ms, 0, 1);
      }
    }
  }

  // ---------- the plan ----------

  function FromSet(values: seq<string>): set<string> { set i | 0 <= i < |values| :: Strip(values[i]) }

  /** `_reads_back_as` */
  predicate ReadsBackAs(t: string, expected: string, yaml: Reader) { yaml(t) == Model(expected) }

  /** The text with the value of a matched line replaced. */
  function Candidate(t: string, m: Match, q: string, to: string): string
    requires m.value <= m.tail <= |t|
  {
    t[..m.value] + Quoted(q, to) + t[m.tail..]
  }

  /** The line's own quotes first, then none, then double quotes, each once. */
  function Quotes(q: string): seq<string> {
    [q] + (if q == "" then [] else [""]) + (if q == "\"" then [] else ["\""])
  }

  function FirstReadable(t: string, m: Match, qs: seq<string>, to: string, yaml: Reader): Option<string>
    requires m.value <= m.tail <= |t|
  {
    if qs == [] then None
    else if ReadsBackAs(Candidate(t, m, qs[0], to), to, yaml) then Some(Candidate(t, m, qs[0], to))
    else FirstReadable(t, m, qs[1..], to, yaml)
  }

  function PlanLine(t: string, v: string, to: string, yaml: Reader): Plan
    requires v != ""
  {
    var ms := FindAll(t, v, 0);
    if |ms| != 1 then Unsupported
    else
      FoundAreLines(t, v, 0);
      var c := FirstReadable(t, ms[0], Quotes(ms[0].quote), to, yaml);
      if c.None? then Unsupported else Rewrite(v, to, c.value)
  }

  /** `plan_rewrite` */
  function PlanRewrite(t: string, r: Request, yaml: Reader): Plan {
    if !r.matchAny && FromSet(r.fromValues) == {} then NoChange
    else
      match yaml(t)
      case ParseError => Unsupported
      case NotMapping => NoChange
      case NoStringModel => NoChange
      case Model(value) =>
        var v := Strip(value);
        if v == "" || v == r.to then NoChange
        else if !r.matchAny && v !in FromSet(r.fromValues) then NoChange
        else PlanLine(t, v, r.to, yaml)
  }

  // ---------- what a plan means ----------

  /** The text's model is one that the request wants replaced. */
  predicate Stale(t: string, r: Request, yaml: Reader) {
    yaml(t).Model? &&
    var v := Strip(yaml(t).value);
    v != "" && v != r.to && (r.matchAny || v in FromSet(r.fromValues))
  }

  predicate Unreadable(t: string, r: Request, yaml: Reader) {
    yaml(t) == ParseError && (r.matchAny || r.fromValues != [])
  }

  /** No change is answered exactly when there is nothing stale and nothing unreadable: a stale value is
      rewritten or reported. */
  lemma NoChangeIff(t: string, r: Request, yaml: Reader)
    ensures PlanRewrite(t, r, yaml) == NoChange <==> !Stale(t, r, yaml) && !Unreadable(t, r, yaml)
  {
    if r.fromValues != [] {
      assert Strip(r.fromValues[0]) in FromSet(r.fromValues);
    }
  }

  /** One of the three ways of quoting the target on the line reads back as the target. */
  predicate Quotable(t: string, m: Match, to: string, yaml: Reader)
    requires m.value <= m.tail <= |t|
  {
    || ReadsBackAs(Candidate(t, m, m.quote, to), to, yaml)
    || ReadsBackAs(Candidate(t, m, "", to), to, yaml)
    || ReadsBackAs(Candidate(t, m, "\"", to), to, yaml)
  }

  lemma FirstReadableIs(t: string, m: Match, to: string, yaml: Reader)
    requires m.value <= m.tail <= |t|
    ensures var c := FirstReadable(t, m, Quotes(m.quote), to, yaml);
            && (c.Some? <==> Quotable(t, m, to, yaml))
            && (c.Some? ==> ReadsBackAs(c.value, to, yaml)
                            && (c.value == Candidate(t, m, m.quote, to) || c.value == Candidate(t, m, "", to)
                                || c.value == Candidate(t, m, "\"", to)))
            && (ReadsBackAs(Candidate(t, m, m.quote, to), to, yaml) ==> c == Some(Candidate(t, m, m.quote, to)))
  {
    FirstOf(t, m, "\"", [], to, yaml);
    FirstOf(t, m, "", [], to, yaml);
    FirstOf(t, m, "", ["\""], to, yaml);
    FirstOf(t, m, m.quote, if m.quote == "" then ["\""] else if m.quote == "\"" then [""] else ["", "\""], to, yaml);
    assert [""] + ["\""] == ["", "\""] && ["\""] + [] == ["\""] && [""] + [] == [""];
    assert Quotes(m.quote) ==
           [m.quote] + if m.quote == "" then ["\""] else if m.quote == "\"" then [""] else ["", "\""];
  }

  lemma FirstOf(t: string, m: Match, q: string, rest: seq<string>, to: string, yaml: Reader)
    requires m.value <= m.tail <= |t|
    ensures FirstReadable(t, m, [q] + rest, to, yaml) ==
            if ReadsBackAs(Candidate(t, m, q, to), to, yaml) then Some(Candidate(t, m, q, to))
            else FirstReadable(t, m, rest, to, yaml)
  {
    assert ([q] + rest)[1..] == rest;
  }

  /** A text that is `pre`, the quoted old value, `post` becomes `pre`, the newly quoted target, `post`. */
  ghost predicate OnlyValueChanged(t: string, u: string, v: string, to: string, m: Match, q: string) {
    && IsModelLine(t, v, m) && IsQuote(q)
    && t == t[..m.value] + Quoted(m.quote, v) + t[m.tail..]
    && u == t[..m.value] + Quoted(q, to) + t[m.tail..]
  }

  /** A rewrite is planned exactly for a stale text whose value stands on one line only and can be quoted;
      it reads back as the target and differs from the text in the quoted value alone. */
  lemma RewriteIff(t: string, r: Request, yaml: Reader)
    ensures PlanRewrite(t, r, yaml).Rewrite? <==>
            && Stale(t, r, yaml)
            && var ms := FindAll(t, Strip(yaml(t).value), 0);
            |ms| == 1 && ms[0].value <= ms[0].tail <= |t| && Quotable(t, ms[0], r.to, yaml)
  {
    if Stale(t, r, yaml) {
      var v := Strip(yaml(t).value);
      FoundAreLines(t, v, 0);
      if |FindAll(t, v, 0)| == 1 {
        FirstReadableIs(t, FindAll(t, v, 0)[0], r.to, yaml);
      }
    }
  }

  /** A stale value on one line is reported unless exactly one model line of the text has it; on that line it is
      rewritten exactly when it can be quoted. */
  lemma StaleOnOneLineIff(t: string, r: Request, yaml: Reader)
    requires Stale(t, r, yaml) && var v := Strip(yaml(t).value); OneLine(v, 0, |v|)
    ensures var v := Strip(yaml(t).value);
            var ms := FindAll(t, v, 0);
            if exists start :: OnlyLine(t, v, start)
            then |ms| == 1 && ms[0].value <= ms[0].tail <= |t|
                 && (PlanRewrite(t, r, yaml).Rewrite? <==> Quotable(t, ms[0], r.to, yaml))
            else PlanRewrite(t, r, yaml) == Unsupported
  {
    var v := Strip(yaml(t).value);
    StrippedIsTrimmed(yaml(t).value);
    OneMatchIff(t, v);
    FoundAreLines(t, v, 0);
    RewriteIff(t, r, yaml);
    NoChangeIff(t, r, yaml);
  }

  lemma StrippedIsTrimmed(s: string)
    requires Strip(s) != ""
    ensures Trimmed(Strip(s))
  {
    StripEnds(s);
  }

  lemma RewriteChangesValueOnly(t: string, r: Request, yaml: Reader)
    requires PlanRewrite(t, r, yaml).Rewrite?
    ensures var p := PlanRewrite(t, r, yaml);
            && yaml(t).Model? && p.oldValue == Strip(yaml(t).value) && p.newValue == r.to && p.oldValue != r.to
            && yaml(p.text) == Model(r.to)
            && exists m, q :: OnlyValueChanged(t, p.text, p.oldValue, r.to, m, q)
  {
    var v := Strip(yaml(t).value);
    FoundAreLines(t, v, 0);
    var m := FindAll(t, v, 0)[0];
    FirstReadableIs(t, m, r.to, yaml);
    CandidateIs(t, v, r.to, m, m.quote);
    CandidateIs(t, v, r.to, m, "");
    CandidateIs(t, v, r.to, m, "\"");
  }

  lemma CandidateIs(t: string, v: string, to: string, m: Match, q: string)
    requires IsModelLine(t, v, m) && IsQuote(q)
    ensures m.value <= m.tail <= |t| && OnlyValueChanged(t, Candidate(t, m, q, to), v, to, m, q)
  {
    assert t == t[..m.value] + t[m.value..m.tail] + t[m.tail..];
  }

  /** Planning again on the result asks for nothing more exactly when the target is its own stripped form,
      or is blank, or its stripped form is not itself among the values to replace. */
  lemma ReplanIff(t: string, r: Request, yaml: Reader)
    requires PlanRewrite(t, r, yaml).Rewrite?
    ensures PlanRewrite(PlanRewrite(t, r, yaml).text, r, yaml) == NoChange <==>
            Strip(r.to) == r.to || Strip(r.to) == "" || (!r.matchAny && Strip(r.to) !in FromSet(r.fromValues))
  {
    RewriteChangesValueOnly(t, r, yaml);
    NoChangeIff(PlanRewrite(t, r, yaml).text, r, yaml);
  }

  /** Where the rewritten line stands. */
  function Moved(m: Match, v: string, to: string, q: string): Match
    requires m.tail <= m.end
  {
    var tail := m.value + |Quoted(q, to)|;
    Match(m.start, m.value, q, tail, tail + (m.end - m.tail))
  }

  /** The rewritten line is again a model line, now of the target, at the same place. */
  lemma LineStays(t: string, u: string, v: string, to: string, m: Match, q: string)
    requires OnlyValueChanged(t, u, v, to, m, q)
    ensures m.tail <= m.end && IsModelLine(u, to, Moved(m, v, to, q))
  {
    TailMoves(t, t, m.tail, m.tail, m.end);
    Pieces(u, t[..m.value], Quoted(q, to), t[m.tail..]);
    Transplant(t, u, v, m, to, Moved(m, v, to, q));
  }

  lemma Transplant(t: string, u: string, v: string, m: Match, to: string, n: Match)
    requires IsModelLine(t, v, m) && n.start == m.start && n.value == m.value && n.value <= |u| && u[..n.value] == t[..m.value]
    requires At(u, n.value, Quoted(n.quote, to)) && n.tail == n.value + |Quoted(n.quote, to)| && IsQuote(n.quote)
    requires u[n.tail..] == t[m.tail..] && m.tail <= m.end && n.end == n.tail + (m.end - m.tail)
    ensures IsModelLine(u, to, n)
  {
    PrefixMoves(t, u, m.start, m.value);
    TailMoves(t, u, m.tail, n.tail, m.end);
    assert m.start > 0 ==> u[m.start - 1] == u[..m.value][m.start - 1] == t[m.start - 1];
    LineFrom(u, to, n);
  }

  lemma LineFrom(t: string, v: string, m: Match)
    requires LineStart(t, m.start) && IsPrefix(t, m.start, m.value) && IsTail(t, m.tail, m.end)
    requires IsQuote(m.quote) && At(t, m.value, Quoted(m.quote, v)) && m.tail == m.value + |Quoted(m.quote, v)|
    ensures IsModelLine(t, v, m)
  {
  }

  lemma Pieces(u: string, a: string, b: string, c: string)
    requires u == a + b + c
    ensures u[..|a|] == a && At(u, |a|, b) && u[|a| + |b|..] == c
  {
  }

  lemma PrefixMoves(t: string, u: string, i: nat, c: nat)
    requires c <= |t| && c <= |u| && t[..c] == u[..c] && IsPrefix(t, i, c)
    ensures IsPrefix(u, i, c) && i < c
  {
    var a: nat, b: nat :| Spaces(t, i, a) && At(t, a, "model") && Spaces(t, a + 5, b) && At(t, b, ":") && Spaces(t, b + 1, c);
    assert forall k :: 0 <= k < c ==> t[k] == t[..c][k] && u[k] == u[..c][k];
    assert u[a..a + 5] == u[..c][a..a + 5] && t[a..a + 5] == t[..c][a..a + 5];
    assert u[b..b + 1] == u[..c][b..b + 1] && t[b..b + 1] == t[..c][b..b + 1];
    assert Spaces(u, i, a) && At(u, a, "model") && Spaces(u, a + 5, b) && At(u, b, ":") && Spaces(u, b + 1, c);
  }

  lemma TailMoves(t: string, u: string, i: nat, j: nat, e: nat)
    requires i <= |t| && j <= |u| && t[i..] == u[j..] && IsTail(t, i, e)
    ensures i <= e && IsTail(u, j, j + (e - i))
  {
    var c: nat :| Spaces(t, i, c) && c <= e && (c == e || (t[c] == '#' && OneLine(t, c, e)));
    SpacesMove(t, u, i, j, c);
    if c < e { RestMoves(t, u, i, j, c, e); }
  }

  lemma SpacesMove(t: string, u: string, i: nat, j: nat, c: nat)
    requires i <= |t| && j <= |u| && t[i..] == u[j..] && Spaces(t, i, c)
    ensures i <= c && Spaces(u, j, j + (c - i))
  {
    assert forall k :: j <= k < j + (c - i) ==> u[j..][k - j] == u[k] && t[i..][k - j] == t[i + (k - j)];
  }

  lemma RestMoves(t: string, u: string, i: nat, j: nat, c: nat, e: nat)
    requires i <= c < e <= |t| && j <= |u| && t[i..] == u[j..] && t[c] == '#' && OneLine(t, c, e)
    ensures j + (e - i) <= |u| && u[j + (c - i)] == '#' && OneLine(u, j + (c - i), j + (e - i))
  {
    assert t[c..] == t[i..][c - i..] && u[j + (c - i)..] == u[j..][c - i..];
    assert forall k :: c <= k < |t| ==> t[c..][k - c] == t[k];
    assert forall k :: j + (c - i) <= k < |u| ==> u[j + (c - i)..][k - (j + (c - i))] == u[k];
  }

  /** Planning the way back restores the text exactly, when the quotes were kept and the old value stood
      stripped in the file; the way back may only be refused for other model lines of the target. */
  lemma WayBack(t: string, r: Request, m: Match, yaml: Reader)
    requires PlanRewrite(t, r, yaml).Rewrite? && Trimmed(r.to) && OneLine(r.to, 0, |r.to|)
    requires yaml(t) == Model(Strip(yaml(t).value))
    requires OnlyValueChanged(t, PlanRewrite(t, r, yaml).text, Strip(yaml(t).value), r.to, m, m.quote)
    requires m.quote != "" || !QuoteMark(r.to[0])
    ensures var v := Strip(yaml(t).value);
            var u := PlanRewrite(t, r, yaml).text;
            PlanRewrite(u, Request([r.to], v, false), yaml) ==
            if |FindAll(u, r.to, 0)| == 1 then Rewrite(r.to, v, t) else Unsupported
  {
    RewriteChangesValueOnly(t, r, yaml);
    PlansLine(PlanRewrite(t, r, yaml).text, r.to, Strip(yaml(t).value), yaml);
    LineBack(t, PlanRewrite(t, r, yaml).text, Strip(yaml(t).value), r.to, m, yaml);
  }

  lemma LineBack(t: string, u: string, v: string, to: string, m: Match, yaml: Reader)
    requires OnlyValueChanged(t, u, v, to, m, m.quote) && yaml(t) == Model(v)
    requires Trimmed(to) && OneLine(to, 0, |to|) && (m.quote != "" || !QuoteMark(to[0]))
    ensures PlanLine(u, to, v, yaml) == if |FindAll(u, to, 0)| == 1 then Rewrite(to, v, t) else Unsupported
  {
    if |FindAll(u, to, 0)| == 1 {
      LineStays(t, u, v, to, m, m.quote);
      var n := Moved(m, v, to, m.quote);
      SameMatch(u, to, n);
      Pieces(u, t[..m.value], Quoted(m.quote, to), t[m.tail..]);
      FirstReadableIs(u, n, v, yaml);
    }
  }

  lemma PlansLine(u: string, v: string, to: string, yaml: Reader)
    requires Trimmed(v) && yaml(u) == Model(v) && v != to
    ensures PlanRewrite(u, Request([v], to, false), yaml) == PlanLine(u, v, to, yaml)
  {
    assert Strip(v) == v;
    assert Strip([v][0]) in FromSet([v]);
  }

  lemma SameMatch(u: string, v: string, n: Match)
    requires Trimmed(v) && OneLine(v, 0, |v|) && IsModelLine(u, v, n) && (n.quote != "" || !QuoteMark(v[0]))
    requires |FindAll(u, v, 0)| == 1
    ensures FindAll(u, v, 0) == [n]
  {
    FoundIff(u, v, n.start);
    LineIsMatched(u, v, n);
    FoundAreMatches(u, v, 0);
  }

  lemma {:induction false} FoundAreMatches(t: string, v: string, i: nat)
    requires v != ""
    ensures forall k :: 0 <= k < |FindAll(t, v, i)| ==>
                        var m := FindAll(t, v, i)[k]; m.start <= |t| && MatchAt(t, v, m.start) == Some(m)
    decreases |t| - i
  {
    if i <= |t| {
      var m := MatchAt(t, v, i);
      if m.None? {
        FoundAreMatches(t, v, i + 1);
      } else {
        MatchIsLine(t, v, i);
        FoundAreMatches(t, v, m.value.end);
      }
    }
  }
}
