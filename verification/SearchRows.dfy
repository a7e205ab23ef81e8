/** What the rows of a search history tell, field by field, and which rows there are. */
module SearchRows {
  import opened Sequences
  import opened Options
  import opened Texts
  import opened DetailTrim
  import opened SearchBackfill

  /** r is v cut to n characters, or the default when nothing is left. */
  predicate CutOr(v: Option<string>, n: nat, default: string, r: string) {
    if v.Some? && v.value != "" then CutTo(v.value, n, r) else r == default
  }

  // ---------- hits ----------

  predicate Complete(hit: Hit) { hit.name != "" && hit.kind != "" && hit.kb != "" }

  /** Hit k of step i is one that the backfill has to write. */
  predicate Candidate(h: History, i: nat, k: nat) {
    && i < |h.steps| && h.steps[i].stage == Some("ontology_match")
    && k < |h.steps[i].hits| && Complete(h.steps[i].hits[k])
  }

  predicate Targets(h: History, o: Oracles, i: nat, k: nat, target: string) {
    Candidate(h, i, k)
    && var hit := h.steps[i].hits[k]; CutTo(o.objectId(h.tenant, hit.kb, hit.kind, hit.name), 128, target)
  }

  predicate Before(a: (nat, nat), b: (nat, nat)) { a.0 < b.0 || (a.0 == b.0 && a.1 < b.1) }

  /** No hit of the target comes before. */
  ghost predicate FirstOfTarget(h: History, o: Oracles, i: nat, k: nat, target: string) {
    Targets(h, o, i, k, target)
    && forall i': nat, k': nat :: Before((i', k'), (i, k)) ==> !Targets(h, o, i', k', target)
  }

  /** A short name is kept; a long one is cut and marked with a hash of the whole. */
  predicate NameTells(name: string, o: Oracles, r: string) {
    if |name| <= 256 then r == name
    else |r| >= 248 && r[..247] == name[..247] && r[247] == '#' && CutTo(o.shortHash(name), 8, r[248..])
  }

  predicate HitTells(h: History, o: Oracles, hit: Hit, r: Row) {
    && r.HitRow? && CutTo("hist:" + h.id, 64, r.rid) && r.tenant == h.tenant && r.at == h.at
    && CutTo(o.objectId(h.tenant, hit.kb, hit.kind, hit.name), 128, r.target)
    && CutTo(hit.kind, 64, r.kind) && NameTells(hit.name, o, r.name)
    && r.kb.Some? && CutTo(hit.kb, 128, r.kb.value)
  }

  lemma HitOfTells(h: History, hit: Hit, o: Oracles)
    ensures HitTells(h, o, hit, HitOf(h, hit, o))
  {
    var r := HitOf(h, hit, o);
    if |hit.name| > 256 {
      TakeCuts(o.shortHash(hit.name), 8);
      assert r.name == hit.name[..247] + "#" + Take(o.shortHash(hit.name), 8);
      assert r.name[248..] == Take(o.shortHash(hit.name), 8);
    }
  }

  lemma {:induction false} RowOfHit(h: History, o: Oracles, hits: seq<Hit>, r: Row) returns (k: nat)
    requires r in ToHits(h, hits, o)
    ensures k < |hits| && Complete(hits[k]) && r == HitOf(h, hits[k], o)
  {
    if r in ToHit(h, hits[0], o) {
      k := 0;
    } else {
      k := RowOfHit(h, o, hits[1..], r);
      k := k + 1;
    }
  }

  lemma {:induction false} RowOfStep(h: History, o: Oracles, steps: seq<StepIn>, r: Row) returns (i: nat, k: nat)
    requires r in ToHits(h, MatchHits(steps), o)
    ensures i < |steps| && steps[i].stage == Some("ontology_match")
    ensures k < |steps[i].hits| && Complete(steps[i].hits[k]) && r == HitOf(h, steps[i].hits[k], o)
  {
    var own := if steps[0].stage == Some("ontology_match") then steps[0].hits else [];
    ToHitsConcat(h, own, MatchHits(steps[1..]), o);
    if r in ToHits(h, own, o) {
      i := 0;
      k := RowOfHit(h, o, own, r);
    } else {
      i, k := RowOfStep(h, o, steps[1..], r);
      i := i + 1;
    }
  }

  lemma {:induction false} MatchHitsConcat(a: seq<StepIn>, b: seq<StepIn>)
    ensures MatchHits(a + b) == MatchHits(a) + MatchHits(b)
  {
    if a == [] {
      assert a + b == b;
    } else {
      assert (a + b)[1..] == a[1..] + b;
      MatchHitsConcat(a[1..], b);
    }
  }

  /** The rows of a list from its item k on, that item being complete. */
  lemma HitInList(h: History, o: Oracles, hits: seq<Hit>, k: nat)
    requires k < |hits| && Complete(hits[k])
    ensures ToHits(h, hits, o) ==
            ToHits(h, hits[..k], o) + ([HitOf(h, hits[k], o)] + ToHits(h, hits[k + 1..], o))
  {
    SplitAt(hits, k);
    ToHitsConcat(h, hits[..k], hits[k..], o);
    assert hits[k..][0] == hits[k] && hits[k..][1..] == hits[k + 1..];
  }

  /** The rows of the ontology matches, cut at the hits of step i. */
  lemma StepInList(h: History, o: Oracles, i: nat)
    requires i < |h.steps| && h.steps[i].stage == Some("ontology_match")
    ensures ToHits(h, MatchHits(h.steps), o) ==
            ToHits(h, MatchHits(h.steps[..i]), o) + (ToHits(h, h.steps[i].hits, o) + ToHits(h, MatchHits(h.steps[i + 1..]), o))
  {
    SplitAt(h.steps, i);
    MatchHitsConcat(h.steps[..i], h.steps[i..]);
    assert h.steps[i..][0] == h.steps[i] && h.steps[i..][1..] == h.steps[i + 1..];
    ToHitsConcat(h, MatchHits(h.steps[..i]), MatchHits(h.steps[i..]), o);
    ToHitsConcat(h, h.steps[i].hits, MatchHits(h.steps[i + 1..]), o);
  }

  /** The row of the candidate, with what precedes it. */
  lemma CandidateRow(h: History, o: Oracles, i: nat, k: nat) returns (rest: seq<Row>)
    requires Candidate(h, i, k)
    ensures ToHits(h, MatchHits(h.steps), o) ==
            (ToHits(h, MatchHits(h.steps[..i]), o) + ToHits(h, h.steps[i].hits[..k], o))
            + ([HitOf(h, h.steps[i].hits[k], o)] + rest)
  {
    var hits, before := h.steps[i].hits, ToHits(h, MatchHits(h.steps[..i]), o);
    var tail, after := ToHits(h, hits[k + 1..], o), ToHits(h, MatchHits(h.steps[i + 1..]), o);
    var own := [HitOf(h, hits[k], o)];
    StepInList(h, o, i);
    HitInList(h, o, hits, k);
    rest := tail + after;
    Associate(ToHits(h, hits[..k], o), own + tail, after);
    Associate(own, tail, after);
    Associate(before, ToHits(h, hits[..k], o), own + rest);
  }

  lemma RowKeyed(h: History, hit: Hit, o: Oracles)
    ensures DedupKey(HitOf(h, hit, o)) == (Take(o.objectId(h.tenant, hit.kb, hit.kind, hit.name), 128), None)
  {
  }

  lemma TargetKey(h: History, o: Oracles, i: nat, k: nat, target: string)
    requires Targets(h, o, i, k, target)
    ensures DedupKey(HitOf(h, h.steps[i].hits[k], o)) == (target, None)
  {
    var hit := h.steps[i].hits[k];
    OneCut(o.objectId(h.tenant, hit.kb, hit.kind, hit.name), 128, target);
  }

  /** No row before that of the first candidate of a target has the target. */
  lemma NoneBefore(h: History, o: Oracles, i: nat, k: nat, target: string, r: Row)
    requires FirstOfTarget(h, o, i, k, target)
    requires r in ToHits(h, MatchHits(h.steps[..i]), o) || r in ToHits(h, h.steps[i].hits[..k], o)
    ensures DedupKey(r) != (target, None)
  {
    var i', k' := i, k;
    if r in ToHits(h, h.steps[i].hits[..k], o) {
      k' := RowOfHit(h, o, h.steps[i].hits[..k], r);
    } else {
      i', k' := RowOfStep(h, o, h.steps[..i], r);
    }
    assert Candidate(h, i', k') && Before((i', k'), (i, k)) && r == HitOf(h, h.steps[i'].hits[k'], o);
    var hit := h.steps[i'].hits[k'];
    TakeCuts(o.objectId(h.tenant, hit.kb, hit.kind, hit.name), 128);
    assert Targets(h, o, i', k', r.target);
  }

  lemma FirstIsKept(h: History, o: Oracles, i: nat, k: nat, target: string)
    requires FirstOfTarget(h, o, i, k, target)
    ensures HitOf(h, h.steps[i].hits[k], o) in Dedup(ToHits(h, MatchHits(h.steps), o), {})
  {
    var all, r := ToHits(h, MatchHits(h.steps), o), HitOf(h, h.steps[i].hits[k], o);
    var a, b := ToHits(h, MatchHits(h.steps[..i]), o), ToHits(h, h.steps[i].hits[..k], o);
    var rest := CandidateRow(h, o, i, k);
    TargetKey(h, o, i, k, target);
    FirstBehind(all, a, b, r, rest) by {
      forall x | x in a || x in b ensures DedupKey(x) != DedupKey(r) { NoneBefore(h, o, i, k, target, x); }
    }
  }

  lemma FirstBehind(all: seq<Row>, a: seq<Row>, b: seq<Row>, r: Row, rest: seq<Row>)
    requires all == (a + b) + ([r] + rest) && forall x :: x in a || x in b ==> DedupKey(x) != DedupKey(r)
    ensures r in Dedup(all, {})
  {
    var p := |a + b|;
    assert all[p] == r;
    forall q | 0 <= q < p ensures DedupKey(all[q]) != DedupKey(r) {
      assert all[q] == if q < |a| then a[q] else b[q - |a|];
    }
    assert FirstOfKey(all, p);
    DedupIs(all, {});
  }

  /** A target with a candidate has a first one. */
  lemma {:induction false} FirstCandidate(h: History, o: Oracles, i: nat, k: nat, target: string) returns (i0: nat, k0: nat)
    requires Targets(h, o, i, k, target)
    ensures FirstOfTarget(h, o, i0, k0, target)
    decreases i, k
  {
    i0, k0 := i, k;
    if i': nat, k': nat :| Before((i', k'), (i, k)) && Targets(h, o, i', k', target) {
      i0, k0 := FirstCandidate(h, o, i', k', target);
    }
  }

  /** There is a hit row of a target exactly when a complete candidate of an ontology match has it, and then one. */
  lemma HitRowIff(j: Job, o: Oracles, target: string)
    ensures (exists r :: r in BuildRows(j, o).hits && r.HitRow? && r.target == target) <==>
            (exists i: nat, k: nat :: Targets(j.history, o, i, k, target))
  {
    var h := j.history;
    var rows := BuildRows(j, o).hits;
    forall r | r in rows && r.HitRow? && r.target == target ensures exists i: nat, k: nat :: Targets(h, o, i, k, target) {
      var i, k := HitRowTells(j, o, r);
    }
    forall i: nat, k: nat | Targets(h, o, i, k, target) ensures exists r :: r in rows && r.HitRow? && r.target == target {
      var i0, k0 := FirstCandidate(h, o, i, k, target);
      FirstIsKept(h, o, i0, k0, target);
      TargetKey(h, o, i0, k0, target);
    }
  }

  /** A hit row tells the first candidate of its target. */
  lemma HitRowTells(j: Job, o: Oracles, r: Row) returns (i: nat, k: nat)
    requires r in BuildRows(j, o).hits
    ensures r.HitRow? && FirstOfTarget(j.history, o, i, k, r.target)
    ensures HitTells(j.history, o, j.history.steps[i].hits[k], r)
  {
    var h := j.history;
    var all := ToHits(h, MatchHits(h.steps), o);
    DedupIs(all, {});
    i, k := RowOfStep(h, o, h.steps, r);
    TakeCuts(o.objectId(h.tenant, h.steps[i].hits[k].kb, h.steps[i].hits[k].kind, h.steps[i].hits[k].name), 128);
    i, k := FirstCandidate(h, o, i, k, r.target);
    FirstIsKept(h, o, i, k, r.target);
    TargetKey(h, o, i, k, r.target);
    OneOfKey(all, r, HitOf(h, h.steps[i].hits[k], o));
    HitOfTells(h, h.steps[i].hits[k], o);
  }

  /** Kept rows of one key are one row. */
  lemma OneOfKey(rows: seq<Row>, r: Row, r': Row)
    requires r in Dedup(rows, {}) && r' in Dedup(rows, {}) && DedupKey(r) == DedupKey(r')
    ensures r == r'
  {
    DedupIs(rows, {});
    var out := Dedup(rows, {});
    var a :| 0 <= a < |out| && out[a] == r;
    var b :| 0 <= b < |out| && out[b] == r';
    assert a == b;
  }

  // ---------- steps ----------

  /** Step i is stored under the stage and the title. */
  predicate Named(h: History, i: nat, stage: string, title: Option<string>) {
    i < |h.steps| && CutOr(h.steps[i].stage, 32, "unknown", stage) && CutToOption(h.steps[i].title, 128, title)
  }

  ghost predicate FirstNamed(h: History, i: nat, stage: string, title: Option<string>) {
    Named(h, i, stage, title) && forall i': nat :: i' < i ==> !Named(h, i', stage, title)
  }

  predicate StepTells(j: Job, o: Oracles, step: StepIn, r: Row) {
    var h := j.history;
    && r.StepRow? && CutTo("hist:" + h.id, 64, r.rid) && r.tenant == h.tenant && r.at == h.at && r.kbs == j.kbs
    && CutOr(step.stage, 32, "unknown", r.stage) && CutToOption(step.title, 128, r.title)
    && CutOr(step.status, 16, "done", r.status) && CutToOption(step.summary, 2000, r.summary)
    && r.detail == Trim(step.detail, o.size) && r.duration == step.duration && CutToOption(h.service, 128, r.service)
  }

  lemma ToStepTells(j: Job, o: Oracles, step: StepIn)
    ensures StepTells(j, o, step, ToStep(j.history, step, j.kbs, o))
  {
  }

  lemma OneOption(v: Option<string>, n: nat, r: Option<string>)
    requires CutToOption(v, n, r)
    ensures r == Clip(v, n)
  {
    if v.Some? { OneCut(v.value, n, r.value); }
  }

  lemma OneDefault(v: Option<string>, n: nat, default: string, r: string)
    requires n > 0 && CutOr(v, n, default, r)
    ensures r == OrElse(Clip(v, n), default)
  {
  }

  lemma NamedKey(j: Job, o: Oracles, i: nat, stage: string, title: Option<string>)
    requires i < |j.history.steps|
    ensures Named(j.history, i, stage, title) <==>
            DedupKey(ToStep(j.history, j.history.steps[i], j.kbs, o)) == (stage, title)
  {
    var step := j.history.steps[i];
    ToStepTells(j, o, step);
    if Named(j.history, i, stage, title) {
      OneDefault(step.stage, 32, "unknown", stage);
      OneOption(step.title, 128, title);
    }
  }

  lemma {:induction false} StepAt(h: History, steps: seq<StepIn>, kbs: seq<string>, o: Oracles)
    ensures |ToSteps(h, steps, kbs, o)| == |steps|
    ensures forall i :: 0 <= i < |steps| ==> ToSteps(h, steps, kbs, o)[i] == ToStep(h, steps[i], kbs, o)
  {
    if steps != [] { StepAt(h, steps[1..], kbs, o); }
  }

  /** The first step of a stage and title is kept, and it alone. */
  lemma FirstStepKept(j: Job, o: Oracles, i: nat, stage: string, title: Option<string>)
    requires FirstNamed(j.history, i, stage, title)
    ensures ToStep(j.history, j.history.steps[i], j.kbs, o) in BuildRows(j, o).steps
    ensures DedupKey(ToStep(j.history, j.history.steps[i], j.kbs, o)) == (stage, title)
  {
    var h := j.history;
    var all := ToSteps(h, h.steps, j.kbs, o);
    StepAt(h, h.steps, j.kbs, o);
    forall k: nat | k <= i ensures DedupKey(all[k]) == (stage, title) <==> Named(h, k, stage, title) {
      NamedKey(j, o, k, stage, title);
    }
    assert FirstOfKey(all, i);
    DedupIs(all, {});
  }

  lemma {:induction false} FirstStep(h: History, i: nat, stage: string, title: Option<string>) returns (i0: nat)
    requires Named(h, i, stage, title)
    ensures FirstNamed(h, i0, stage, title)
  {
    if i': nat :| i' < i && Named(h, i', stage, title) {
      i0 := FirstStep(h, i', stage, title);
    } else {
      i0 := i;
    }
  }

  /** There is a step row of a stage and title exactly when a step has them. */
  lemma StepRowIff(j: Job, o: Oracles, stage: string, title: Option<string>)
    ensures (exists r :: r in BuildRows(j, o).steps && r.StepRow? && r.stage == stage && r.title == title) <==>
            (exists i: nat :: Named(j.history, i, stage, title))
  {
    forall r | r in BuildRows(j, o).steps && r.StepRow? && r.stage == stage && r.title == title
      ensures exists i: nat :: Named(j.history, i, stage, title)
    {
      var i := StepRowTells(j, o, r);
    }
    forall i: nat | Named(j.history, i, stage, title)
      ensures exists r :: r in BuildRows(j, o).steps && r.StepRow? && r.stage == stage && r.title == title
    {
      var i0 := FirstStep(j.history, i, stage, title);
      FirstStepKept(j, o, i0, stage, title);
    }
  }

  /** A step row tells the first step of its stage and title. */
  lemma StepRowTells(j: Job, o: Oracles, r: Row) returns (i: nat)
    requires r in BuildRows(j, o).steps
    ensures r.StepRow? && FirstNamed(j.history, i, r.stage, r.title) && StepTells(j, o, j.history.steps[i], r)
  {
    var h := j.history;
    var all := ToSteps(h, h.steps, j.kbs, o);
    DedupIs(all, {});
    StepAt(h, h.steps, j.kbs, o);
    i :| 0 <= i < |all| && all[i] == r;
    NamedKey(j, o, i, r.stage, r.title);
    i := FirstStep(h, i, r.stage, r.title);
    FirstStepKept(j, o, i, r.stage, r.title);
    OneOfKey(all, r, ToStep(h, h.steps[i], j.kbs, o));
    ToStepTells(j, o, h.steps[i]);
  }

  // ---------- adoptions ----------

  /** Reference i is one to a document, which is stored as the target. */
  predicate Adopts(h: History, i: nat, target: string) {
    i < |h.refs| && h.refs[i].doc != "" && CutTo(h.refs[i].doc, 128, target)
  }

  ghost predicate FirstAdopts(h: History, i: nat, target: string) {
    Adopts(h, i, target) && forall i': nat :: i' < i ==> !Adopts(h, i', target)
  }

  predicate AdoptionTells(h: History, ref: Ref, r: Row) {
    && r.AdoptionRow? && CutTo("hist:" + h.id, 64, r.rid) && r.tenant == h.tenant && r.at == h.at
    && CutTo(h.id, 64, r.answer) && CutTo(ref.doc, 128, r.target)
    && CutToOption(ref.file, 256, r.file) && CutToOption(ref.kb, 128, r.kb)
  }

  lemma ToAdoptionTells(h: History, ref: Ref)
    requires ref.doc != ""
    ensures |ToAdoption(h, ref)| == 1 && AdoptionTells(h, ref, ToAdoption(h, ref)[0])
    ensures DedupKey(ToAdoption(h, ref)[0]) == (Take(ref.doc, 128), None)
  {
  }

  lemma {:induction false} RowOfRef(h: History, refs: seq<Ref>, r: Row) returns (i: nat)
    requires r in ToAdoptions(h, refs)
    ensures i < |refs| && refs[i].doc != "" && ToAdoption(h, refs[i]) == [r]
  {
    if r in ToAdoption(h, refs[0]) {
      i := 0;
    } else {
      i := RowOfRef(h, refs[1..], r);
      i := i + 1;
    }
  }

  lemma {:induction false} AdoptionsConcat(h: History, a: seq<Ref>, b: seq<Ref>)
    ensures ToAdoptions(h, a + b) == ToAdoptions(h, a) + ToAdoptions(h, b)
  {
    if a == [] {
      assert a + b == b;
    } else {
      assert (a + b)[1..] == a[1..] + b;
      AdoptionsConcat(h, a[1..], b);
      Associate(ToAdoption(h, a[0]), ToAdoptions(h, a[1..]), ToAdoptions(h, b));
    }
  }

  lemma FirstRefKept(h: History, i: nat, target: string)
    requires FirstAdopts(h, i, target)
    ensures |ToAdoption(h, h.refs[i])| == 1 && DedupKey(ToAdoption(h, h.refs[i])[0]) == (target, None)
    ensures ToAdoption(h, h.refs[i])[0] in Dedup(ToAdoptions(h, h.refs), {})
  {
    var before, rest := ToAdoptions(h, h.refs[..i]), ToAdoptions(h, h.refs[i + 1..]);
    var r := ToAdoption(h, h.refs[i]);
    ToAdoptionTells(h, h.refs[i]);
    OneCut(h.refs[i].doc, 128, target);
    SplitAt(h.refs, i);
    AdoptionsConcat(h, h.refs[..i], h.refs[i..]);
    assert h.refs[i..][0] == h.refs[i] && h.refs[i..][1..] == h.refs[i + 1..];
    assert r == [r[0]] && before + [] == before;
    FirstBehind(ToAdoptions(h, h.refs), before, [], r[0], rest) by {
      forall x | x in before ensures DedupKey(x) != (target, None) {
        var i' := RowOfRef(h, h.refs[..i], x);
        ToAdoptionTells(h, h.refs[i']);
        TakeCuts(h.refs[i'].doc, 128);
        assert !Adopts(h, i', target);
      }
    }
  }

  lemma {:induction false} FirstRef(h: History, i: nat, target: string) returns (i0: nat)
    requires Adopts(h, i, target)
    ensures FirstAdopts(h, i0, target)
  {
    if i': nat :| i' < i && Adopts(h, i', target) {
      i0 := FirstRef(h, i', target);
    } else {
      i0 := i;
    }
  }

  /** There is an adoption row of a target exactly when a reference to a document has it. */
  lemma AdoptionRowIff(j: Job, o: Oracles, target: string)
    ensures (exists r :: r in BuildRows(j, o).adoptions && r.AdoptionRow? && r.target == target) <==>
            (exists i: nat :: Adopts(j.history, i, target))
  {
    forall r | r in BuildRows(j, o).adoptions && r.AdoptionRow? && r.target == target
      ensures exists i: nat :: Adopts(j.history, i, target)
    {
      var i := AdoptionRowTells(j, o, r);
    }
    forall i: nat | Adopts(j.history, i, target)
      ensures exists r :: r in BuildRows(j, o).adoptions && r.AdoptionRow? && r.target == target
    {
      var i0 := FirstRef(j.history, i, target);
      FirstRefKept(j.history, i0, target);
      ToAdoptionTells(j.history, j.history.refs[i0]);
    }
  }

  /** An adoption row tells the first reference to its document. */
  lemma AdoptionRowTells(j: Job, o: Oracles, r: Row) returns (i: nat)
    requires r in BuildRows(j, o).adoptions
    ensures r.AdoptionRow? && FirstAdopts(j.history, i, r.target) && AdoptionTells(j.history, j.history.refs[i], r)
  {
    var h := j.history;
    var all := ToAdoptions(h, h.refs);
    DedupIs(all, {});
    i := RowOfRef(h, h.refs, r);
    ToAdoptionTells(h, h.refs[i]);
    i := FirstRef(h, i, r.target);
    FirstRefKept(h, i, r.target);
    OneOfKey(all, r, ToAdoption(h, h.refs[i])[0]);
    ToAdoptionTells(h, h.refs[i]);
  }

  // ---------- the request ----------

  /** The one request row of a history. */
  lemma RequestRowIs(j: Job, o: Oracles)
    ensures var h, rows := j.history, BuildRows(j, o).requests;
            |rows| == 1 && rows[0].RequestRow?
            && var r := rows[0];
               && CutTo("hist:" + h.id, 64, r.rid) && r.tenant == h.tenant && r.at == h.at
               && CutToOption(h.user, 128, r.user) && CutToOption(h.service, 128, r.service)
               && CutToOption(h.space, 128, r.space) && r.query == h.query && r.kbs == j.kbs
               && (r.queryHash.Some? <==> h.query.Some? && h.query.value != "")
               && (r.queryHash.Some? ==> CutTo(o.queryHash(h.query.value), 64, r.queryHash.value))
  {
  }

  /** No table has a row of the history twice. */
  lemma NoRowTwice(j: Job, o: Oracles)
    ensures var rows := BuildRows(j, o); Distinct(rows.steps) && Distinct(rows.hits) && Distinct(rows.adoptions)
  {
    var h := j.history;
    DedupIs(ToSteps(h, h.steps, j.kbs, o), {});
    DedupIs(ToHits(h, MatchHits(h.steps), o), {});
    DedupIs(ToAdoptions(h, h.refs), {});
  }
}
