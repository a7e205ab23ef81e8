/** Backfill of the four search event tables from the search history.

    No table has a uniqueness constraint: repeating a run is safe because a history whose request row
    exists is skipped, and because all rows of a history are written in one transaction. */
module SearchBackfill {
  import opened Sequences
  import opened Options
  import opened Texts
  import opened DetailTrim

  const HIST_PREFIX := "hist:"
  const REQUEST_ID_MAX: nat := 64

  // ---------- what is read ----------

  /** A candidate of an ontology match; an empty field stands for a missing one. */
  datatype Hit = Hit(name: string, kind: string, kb: string)

  datatype StepIn = StepIn(stage: Option<string>, title: Option<string>, status: Option<string>,
                           summary: Option<string>, detail: Json, hits: seq<Hit>, duration: Option<int>)

  datatype Ref = Ref(doc: string, file: Option<string>, kb: Option<string>)

  datatype History = History(id: string, tenant: string, user: Option<string>, query: Option<string>,
                             service: Option<string>, space: Option<string>, at: int,
                             steps: seq<StepIn>, refs: seq<Ref>)

  /** A history with the knowledge bases resolved for it. */
  datatype Job = Job(history: History, kbs: seq<string>)

  /** Hashes and the serialiser, seen from outside. */
  datatype Oracles = Oracles(queryHash: string -> string,
                             objectId: (string, string, string, string) -> string,
                             shortHash: string -> string,
                             size: Size)

  // ---------- what is written ----------

  datatype Row =
    | RequestRow(rid: string, tenant: string, user: Option<string>, service: Option<string>, space: Option<string>,
                 query: Option<string>, queryHash: Option<string>, kbs: seq<string>, at: int)
    | StepRow(rid: string, tenant: string, stage: string, title: Option<string>, status: string,
              summary: Option<string>, detail: Option<Json>, duration: Option<int>, kbs: seq<string>,
              service: Option<string>, at: int)
    | HitRow(rid: string, tenant: string, target: string, kind: string, name: string, kb: Option<string>, at: int)
    | AdoptionRow(rid: string, tenant: string, answer: string, target: string, file: Option<string>,
                  kb: Option<string>, at: int)

  /** The four tables; also the rows of one history. */
  datatype Db = Db(requests: seq<Row>, steps: seq<Row>, hits: seq<Row>, adoptions: seq<Row>)

  const EMPTY := Db([], [], [], [])

  // ---------- rows of one history ----------

  /** `_hist_request_id` */
  function RequestId(historyId: string): string { Take(HIST_PREFIX + historyId, REQUEST_ID_MAX) }

  function Rid(j: Job): string { RequestId(j.history.id) }

  /** `_clip` */
  function Clip(v: Option<string>, n: nat): Option<string> {
    if v.Some? then Some(Take(v.value, n)) else None
  }

  /** `_clip_identity` */
  function ClipIdentity(v: string, n: nat, o: Oracles): string {
    if |v| <= n then v else v[..if n >= 9 then n - 9 else 0] + "#" + Take(o.shortHash(v), 8)
  }

  function OrElse(v: Option<string>, default: string): string {
    if v.Some? && v.value != "" then v.value else default
  }

  /** The fields a table is deduplicated by. */
  function DedupKey(r: Row): (string, Option<string>) {
    match r
    case RequestRow(_, _, _, _, _, _, _, _, _) => (r.rid, None)
    case StepRow(_, _, _, _, _, _, _, _, _, _, _) => (r.stage, r.title)
    case HitRow(_, _, _, _, _, _, _) => (r.target, None)
    case AdoptionRow(_, _, _, _, _, _, _) => (r.target, None)
  }

  /** The first row of every key not yet seen. */
  function Dedup(rows: seq<Row>, seen: set<(string, Option<string>)>): seq<Row> {
    if rows == [] then []
    else if DedupKey(rows[0]) in seen then Dedup(rows[1..], seen)
    else [rows[0]] + Dedup(rows[1..], seen + {DedupKey(rows[0])})
  }

  function ToStep(h: History, s: StepIn, kbs: seq<string>, o: Oracles): Row {
    StepRow(RequestId(h.id), h.tenant, OrElse(Clip(s.stage, 32), "unknown"), Clip(s.title, 128),
            OrElse(Clip(s.status, 16), "done"), Clip(s.summary, 2000), Trim(s.detail, o.size), s.duration, kbs,
            Clip(h.service, 128), h.at)
  }

  function ToSteps(h: History, steps: seq<StepIn>, kbs: seq<string>, o: Oracles): seq<Row> {
    if steps == [] then [] else [ToStep(h, steps[0], kbs, o)] + ToSteps(h, steps[1..], kbs, o)
  }

  function HitOf(h: History, hit: Hit, o: Oracles): Row {
    HitRow(RequestId(h.id), h.tenant, Take(o.objectId(h.tenant, hit.kb, hit.kind, hit.name), 128),
           Take(hit.kind, 64), ClipIdentity(hit.name, 256, o), Some(Take(hit.kb, 128)), h.at)
  }

  /** A candidate counts when name, type and knowledge base are all there. */
  function ToHit(h: History, hit: Hit, o: Oracles): seq<Row> {
    if hit.name == "" || hit.kind == "" || hit.kb == "" then [] else [HitOf(h, hit, o)]
  }

  function ToHits(h: History, hits: seq<Hit>, o: Oracles): seq<Row> {
    if hits == [] then [] else ToHit(h, hits[0], o) + ToHits(h, hits[1..], o)
  }

  function MatchHits(steps: seq<StepIn>): seq<Hit> {
    if steps == [] then []
    else (if steps[0].stage == Some("ontology_match") then steps[0].hits else []) + MatchHits(steps[1..])
  }

  function ToAdoption(h: History, ref: Ref): seq<Row> {
    if ref.doc == "" then []
    else [AdoptionRow(RequestId(h.id), h.tenant, Take(h.id, REQUEST_ID_MAX), Take(ref.doc, 128),
                      Clip(ref.file, 256), Clip(ref.kb, 128), h.at)]
  }

  function ToAdoptions(h: History, refs: seq<Ref>): seq<Row> {
    if refs == [] then [] else ToAdoption(h, refs[0]) + ToAdoptions(h, refs[1..])
  }

  function QueryHash(query: Option<string>, o: Oracles): Option<string> {
    if query.Some? && query.value != "" then Some(Take(o.queryHash(query.value), 64)) else None
  }

  /** `_build_search_rows` */
  function BuildRows(j: Job, o: Oracles): Db {
    var h := j.history;
    Db([RequestRow(RequestId(h.id), h.tenant, Clip(h.user, 128), Clip(h.service, 128), Clip(h.space, 128),
                   h.query, QueryHash(h.query, o), j.kbs, h.at)],
       Dedup(ToSteps(h, h.steps, j.kbs, o), {}),
       Dedup(ToHits(h, MatchHits(h.steps), o), {}),
       Dedup(ToAdoptions(h, h.refs), {}))
  }

  // ---------- tables ----------

  function Append(a: Db, b: Db): Db {
    Db(a.requests + b.requests, a.steps + b.steps, a.hits + b.hits, a.adoptions + b.adoptions)
  }

  /** The rows of one request id. */
  function Group(rows: seq<Row>, rid: string): seq<Row> {
    if rows == [] then [] else (if rows[0].rid == rid then [rows[0]] else []) + Group(rows[1..], rid)
  }

  function GroupDb(db: Db, rid: string): Db {
    Db(Group(db.requests, rid), Group(db.steps, rid), Group(db.hits, rid), Group(db.adoptions, rid))
  }

  /** DELETE ... WHERE request_id = ANY(ids) */
  function Without(rows: seq<Row>, ids: set<string>): seq<Row> {
    if rows == [] then [] else (if rows[0].rid in ids then [] else [rows[0]]) + Without(rows[1..], ids)
  }

  function WithoutDb(db: Db, ids: set<string>): Db {
    Db(Without(db.requests, ids), Without(db.steps, ids), Without(db.hits, ids), Without(db.adoptions, ids))
  }

  function RowIds(rows: seq<Row>): set<string> { set i | 0 <= i < |rows| :: rows[i].rid }

  function JobIds(jobs: seq<Job>): set<string> { set i | 0 <= i < |jobs| :: Rid(jobs[i]) }

  function Select(jobs: seq<Job>, existing: set<string>): seq<Job> {
    if jobs == [] then [] else (if Rid(jobs[0]) in existing then [] else [jobs[0]]) + Select(jobs[1..], existing)
  }

  /** The transactions of the jobs, in order; those of the broken request ids are rolled back. */
  function WriteAll(db: Db, jobs: seq<Job>, broken: set<string>, o: Oracles): Db
    decreases |jobs|
  {
    if jobs == [] then db
    else WriteAll(if Rid(jobs[0]) in broken then db else Append(db, BuildRows(jobs[0], o)), jobs[1..], broken, o)
  }

  function CountBroken(jobs: seq<Job>, broken: set<string>): nat {
    if jobs == [] then 0 else (if Rid(jobs[0]) in broken then 1 else 0) + CountBroken(jobs[1..], broken)
  }

  datatype Args = Args(force: bool, dryRun: bool)

  /** What fails from outside: the deletion of a forced run, and transactions of single histories. */
  datatype Faults = Faults(deletion: bool, broken: set<string>)

  function Todo(db: Db, jobs: seq<Job>, args: Args): seq<Job> {
    Select(jobs, if args.force then {} else RowIds(db.requests))
  }

  predicate Deletes(db: Db, jobs: seq<Job>, args: Args) {
    args.force && !args.dryRun && Todo(db, jobs, args) != []
  }

  predicate Aborts(db: Db, jobs: seq<Job>, args: Args, faults: Faults) {
    Deletes(db, jobs, args) && faults.deletion
  }

  /** The tables after `_backfill_search`. */
  function RunDb(db: Db, jobs: seq<Job>, args: Args, faults: Faults, o: Oracles): Db {
    var todo := Todo(db, jobs, args);
    if args.dryRun || Aborts(db, jobs, args, faults) then db
    else WriteAll(if Deletes(db, jobs, args) then WithoutDb(db, JobIds(todo)) else db, todo, faults.broken, o)
  }

  lemma {:induction false} ToHitsConcat(h: History, a: seq<Hit>, b: seq<Hit>, o: Oracles)
    ensures ToHits(h, a + b, o) == ToHits(h, a, o) + ToHits(h, b, o)
  {
    if a == [] {
      assert a + b == b;
    } else {
      assert (a + b)[1..] == a[1..] + b;
      ToHitsConcat(h, a[1..], b, o);
      Associate(ToHit(h, a[0], o), ToHits(h, a[1..], o), ToHits(h, b, o));
    }
  }

  // ---------- the store ----------

  class EventStore {
    var requests: seq<Row>
    var steps: seq<Row>
    var hits: seq<Row>
    var adoptions: seq<Row>
    var done: nat
    var failed: nat
    var skipped: nat

    ghost function Tables(): Db
      reads this
    {
      Db(requests, steps, hits, adoptions)
    }

    /** `_dedup_rows` */
    static method DedupRows(rows: seq<Row>) returns (out: seq<Row>)
      ensures out == Dedup(rows, {})
    {
      var seen: set<(string, Option<string>)> := {};
      out := [];
      var i := 0;
      while i < |rows|
        invariant 0 <= i <= |rows|
        invariant out + Dedup(rows[i..], seen) == Dedup(rows, {})
      {
        var row := rows[i];
        assert rows[i..][0] == row && rows[i..][1..] == rows[i + 1..];
        if DedupKey(row) !in seen {
          var rest := Dedup(rows[i + 1..], seen + {DedupKey(row)});
          assert out + ([row] + rest) == (out + [row]) + rest;
          seen := seen + {DedupKey(row)};
          out := out + [row];
        }
        i := i + 1;
      }
      assert out + [] == out;
    }

    static method StepRows(h: History, kbs: seq<string>, o: Oracles) returns (rows: seq<Row>)
      ensures rows == Dedup(ToSteps(h, h.steps, kbs, o), {})
    {
      rows := [];
      var i := 0;
      while i < |h.steps|
        invariant 0 <= i <= |h.steps|
        invariant rows + ToSteps(h, h.steps[i..], kbs, o) == ToSteps(h, h.steps, kbs, o)
      {
        var step := h.steps[i];
        assert h.steps[i..][0] == step && h.steps[i..][1..] == h.steps[i + 1..];
        var rest := ToSteps(h, h.steps[i + 1..], kbs, o);
        var detail := TrimDetail(step.detail, o.size);
        var row := StepRow(RequestId(h.id), h.tenant, OrElse(Clip(step.stage, 32), "unknown"), Clip(step.title, 128),
                           OrElse(Clip(step.status, 16), "done"), Clip(step.summary, 2000), detail, step.duration,
                           kbs, Clip(h.service, 128), h.at);
        assert rows + ([row] + rest) == (rows + [row]) + rest;
        rows := rows + [row];
        i := i + 1;
      }
      assert rows + [] == rows;
      rows := DedupRows(rows);
    }

    static method StepHits(h: History, hits: seq<Hit>, o: Oracles) returns (rows: seq<Row>)
      ensures rows == ToHits(h, hits, o)
    {
      rows := [];
      var k := 0;
      while k < |hits|
        invariant 0 <= k <= |hits|
        invariant rows + ToHits(h, hits[k..], o) == ToHits(h, hits, o)
      {
        var hit := hits[k];
        assert hits[k..][0] == hit && hits[k..][1..] == hits[k + 1..];
        Associate(rows, ToHit(h, hit, o), ToHits(h, hits[k + 1..], o));
        if hit.name != "" && hit.kind != "" && hit.kb != "" {
          rows := rows + [HitOf(h, hit, o)];
        } else {
          assert rows + [] == rows;
        }
        k := k + 1;
      }
      assert rows + [] == rows;
    }

    static method HitRows(h: History, o: Oracles) returns (rows: seq<Row>)
      ensures rows == Dedup(ToHits(h, MatchHits(h.steps), o), {})
    {
      rows := [];
      var i := 0;
      while i < |h.steps|
        invariant 0 <= i <= |h.steps|
        invariant rows + ToHits(h, MatchHits(h.steps[i..]), o) == ToHits(h, MatchHits(h.steps), o)
      {
        var step := h.steps[i];
        assert h.steps[i..][0] == step && h.steps[i..][1..] == h.steps[i + 1..];
        ghost var later := MatchHits(h.steps[i + 1..]);
        if step.stage == Some("ontology_match") {
          var found := StepHits(h, step.hits, o);
          ToHitsConcat(h, step.hits, later, o);
          Associate(rows, found, ToHits(h, later, o));
          rows := rows + found;
        } else {
          assert [] + later == later;
        }
        i := i + 1;
      }
      assert rows + [] == rows;
      rows := DedupRows(rows);
    }

    static method AdoptionRows(h: History) returns (rows: seq<Row>)
      ensures rows == Dedup(ToAdoptions(h, h.refs), {})
    {
      rows := [];
      var i := 0;
      while i < |h.refs|
        invariant 0 <= i <= |h.refs|
        invariant rows + ToAdoptions(h, h.refs[i..]) == ToAdoptions(h, h.refs)
      {
        var ref := h.refs[i];
        assert h.refs[i..][0] == ref && h.refs[i..][1..] == h.refs[i + 1..];
        var rest := ToAdoptions(h, h.refs[i + 1..]);
        if ref.doc != "" {
          var row := AdoptionRow(RequestId(h.id), h.tenant, Take(h.id, REQUEST_ID_MAX), Take(ref.doc, 128),
                                 Clip(ref.file, 256), Clip(ref.kb, 128), h.at);
          assert rows + ([row] + rest) == (rows + [row]) + rest;
          rows := rows + [row];
        } else {
          assert [] + rest == rest;
        }
        i := i + 1;
      }
      assert rows + [] == rows;
      rows := DedupRows(rows);
    }

    /** `_build_search_rows` */
    static method BuildSearchRows(j: Job, o: Oracles) returns (rows: Db)
      ensures rows == BuildRows(j, o)
    {
      var h := j.history;
      var request := RequestRow(RequestId(h.id), h.tenant, Clip(h.user, 128), Clip(h.service, 128), Clip(h.space, 128),
                                h.query, QueryHash(h.query, o), j.kbs, h.at);
      var stepRows := StepRows(h, j.kbs, o);
      var hitRows := HitRows(h, o);
      var adoptionRows := AdoptionRows(h);
      rows := Db([request], stepRows, hitRows, adoptionRows);
    }

    /** One deletion transaction over the four tables */
    method DeleteGroups(ids: set<string>)
      modifies this`requests, this`steps, this`hits, this`adoptions
      ensures Tables() == WithoutDb(old(Tables()), ids)
    {
      requests := Without(requests, ids);
      steps := Without(steps, ids);
      hits := Without(hits, ids);
      adoptions := Without(adoptions, ids);
    }

    /** `_write_search_rows`: the insertions of one transaction */
    method WriteRows(rows: Db)
      modifies this`requests, this`steps, this`hits, this`adoptions
      ensures Tables() == Append(old(Tables()), rows)
    {
      requests := requests + rows.requests;
      steps := steps + rows.steps;
      hits := hits + rows.hits;
      adoptions := adoptions + rows.adoptions;
    }

    /** `_backfill_search`; the answer is false when the deletion fails and the run ends there. */
    method BackfillSearch(jobs: seq<Job>, args: Args, faults: Faults, o: Oracles) returns (finished: bool)
      modifies this
      ensures finished == !Aborts(old(Tables()), jobs, args, faults)
      ensures Tables() == RunDb(old(Tables()), jobs, args, faults, o)
      ensures skipped == old(skipped) + |jobs| - |Todo(old(Tables()), jobs, args)|
      ensures finished ==> failed == old(failed) + CountBroken(Todo(old(Tables()), jobs, args), faults.broken)
      ensures finished ==> done + failed + skipped == old(done) + old(failed) + old(skipped) + |jobs|
    {
      var existing := if args.force then {} else set i | 0 <= i < |requests| :: requests[i].rid;
      var todo := Select(jobs, existing);
      SelectShorter(jobs, existing);
      skipped := skipped + |jobs| - |todo|;
      if args.force && todo != [] && !args.dryRun {
        if faults.deletion {
          return false;
        }
        DeleteGroups(JobIds(todo));
      }
      ghost var start, failures, successes := Tables(), failed, done;
      var i := 0;
      while i < |todo|
        invariant 0 <= i <= |todo|
        invariant if args.dryRun then Tables() == start
                  else WriteAll(Tables(), todo[i..], faults.broken, o) == WriteAll(start, todo, faults.broken, o)
        invariant failed + CountBroken(todo[i..], faults.broken) == failures + CountBroken(todo, faults.broken)
        invariant done + failed == successes + failures + i && skipped == old(skipped) + |jobs| - |todo|
      {
        assert todo[i..][0] == todo[i] && todo[i..][1..] == todo[i + 1..];
        if Rid(todo[i]) in faults.broken {
          failed := failed + 1;
        } else {
          var rows := BuildSearchRows(todo[i], o);
          if !args.dryRun {
            WriteRows(rows);
          }
          done := done + 1;
        }
        i := i + 1;
      }
      return true;
    }
  }

  /** The jobs whose transaction fails are all but those that a selection without them keeps. */
  lemma {:induction false} CountBrokenIs(jobs: seq<Job>, broken: set<string>)
    ensures CountBroken(jobs, broken) + |Select(jobs, broken)| == |jobs|
  {
    if jobs != [] { CountBrokenIs(jobs[1..], broken); }
  }

  lemma SelectShorter(jobs: seq<Job>, existing: set<string>)
    ensures |Select(jobs, existing)| <= |jobs|
  {
  }

  // ---------- groups ----------

  lemma {:induction false} GroupConcat(a: seq<Row>, b: seq<Row>, rid: string)
    ensures Group(a + b, rid) == Group(a, rid) + Group(b, rid)
  {
    if a == [] {
      assert a + b == b;
    } else {
      assert (a + b)[1..] == a[1..] + b;
      GroupConcat(a[1..], b, rid);
    }
  }

  lemma {:induction false} GroupWithout(rows: seq<Row>, ids: set<string>, rid: string)
    ensures Group(Without(rows, ids), rid) == if rid in ids then [] else Group(rows, rid)
  {
    if rows != [] {
      GroupWithout(rows[1..], ids, rid);
      var head := if rows[0].rid in ids then [] else [rows[0]];
      GroupConcat(head, Without(rows[1..], ids), rid);
      assert Group([rows[0]], rid) == if rows[0].rid == rid then [rows[0]] else [];
    }
  }

  predicate AllOf(rows: seq<Row>, rid: string) { forall i :: 0 <= i < |rows| ==> rows[i].rid == rid }

  lemma {:induction false} GroupOfOwn(rows: seq<Row>, own: string, rid: string)
    requires AllOf(rows, own)
    ensures Group(rows, rid) == if rid == own then rows else []
  {
    if rows != [] {
      GroupOfOwn(rows[1..], own, rid);
      assert rows == [rows[0]] + rows[1..];
    }
  }

  lemma {:induction false} DedupOwn(rows: seq<Row>, seen: set<(string, Option<string>)>, rid: string)
    requires AllOf(rows, rid)
    ensures AllOf(Dedup(rows, seen), rid)
  {
    if rows != [] {
      DedupOwn(rows[1..], seen, rid);
      DedupOwn(rows[1..], seen + {DedupKey(rows[0])}, rid);
    }
  }

  lemma {:induction false} StepsOwn(h: History, steps: seq<StepIn>, kbs: seq<string>, o: Oracles)
    ensures AllOf(ToSteps(h, steps, kbs, o), RequestId(h.id))
  {
    if steps != [] { StepsOwn(h, steps[1..], kbs, o); }
  }

  lemma {:induction false} HitsOwn(h: History, hits: seq<Hit>, o: Oracles)
    ensures AllOf(ToHits(h, hits, o), RequestId(h.id))
  {
    if hits != [] { HitsOwn(h, hits[1..], o); }
  }

  lemma {:induction false} AdoptionsOwn(h: History, refs: seq<Ref>)
    ensures AllOf(ToAdoptions(h, refs), RequestId(h.id))
  {
    if refs != [] { AdoptionsOwn(h, refs[1..]); }
  }

  /** All rows of a history carry its request id. */
  lemma RowsOwn(j: Job, o: Oracles, rid: string)
    ensures GroupDb(BuildRows(j, o), rid) == if rid == Rid(j) then BuildRows(j, o) else EMPTY
  {
    var h, rows := j.history, BuildRows(j, o);
    StepsOwn(h, h.steps, j.kbs, o);
    HitsOwn(h, MatchHits(h.steps), o);
    AdoptionsOwn(h, h.refs);
    DedupOwn(ToSteps(h, h.steps, j.kbs, o), {}, Rid(j));
    DedupOwn(ToHits(h, MatchHits(h.steps), o), {}, Rid(j));
    DedupOwn(ToAdoptions(h, h.refs), {}, Rid(j));
    GroupOfOwn(rows.requests, Rid(j), rid);
    GroupOfOwn(rows.steps, Rid(j), rid);
    GroupOfOwn(rows.hits, Rid(j), rid);
    GroupOfOwn(rows.adoptions, Rid(j), rid);
  }

  lemma GroupAppend(a: Db, b: Db, rid: string)
    ensures GroupDb(Append(a, b), rid) == Append(GroupDb(a, rid), GroupDb(b, rid))
  {
    GroupConcat(a.requests, b.requests, rid);
    GroupConcat(a.steps, b.steps, rid);
    GroupConcat(a.hits, b.hits, rid);
    GroupConcat(a.adoptions, b.adoptions, rid);
  }

  lemma GroupWithoutDb(db: Db, ids: set<string>, rid: string)
    ensures GroupDb(WithoutDb(db, ids), rid) == if rid in ids then EMPTY else GroupDb(db, rid)
  {
    GroupWithout(db.requests, ids, rid);
    GroupWithout(db.steps, ids, rid);
    GroupWithout(db.hits, ids, rid);
    GroupWithout(db.adoptions, ids, rid);
  }

  lemma AppendEmpty(a: Db)
    ensures Append(a, EMPTY) == a && Append(EMPTY, a) == a
  {
  }

  predicate DistinctJobs(jobs: seq<Job>) {
    forall i, k :: 0 <= i < k < |jobs| ==> Rid(jobs[i]) != Rid(jobs[k])
  }

  /** What the transactions of a run leave at a request id: one more group if a job of that id went
      through, nothing else. */
  lemma {:induction false} WriteAllGroups(db: Db, jobs: seq<Job>, broken: set<string>, o: Oracles, rid: string)
    requires DistinctJobs(jobs)
    ensures rid !in JobIds(jobs) || rid in broken ==>
      GroupDb(WriteAll(db, jobs, broken, o), rid) == GroupDb(db, rid)
    ensures forall i :: 0 <= i < |jobs| && Rid(jobs[i]) == rid && rid !in broken ==>
      GroupDb(WriteAll(db, jobs, broken, o), rid) == Append(GroupDb(db, rid), BuildRows(jobs[i], o))
    decreases |jobs|
  {
    if jobs != [] {
      var j, rest := jobs[0], jobs[1..];
      var db1 := if Rid(j) in broken then db else Append(db, BuildRows(j, o));
      GroupAppend(db, BuildRows(j, o), rid);
      RowsOwn(j, o, rid);
      AppendEmpty(GroupDb(db, rid));
      WriteAllGroups(db1, rest, broken, o, rid);
      assert forall i :: 0 <= i < |rest| ==> rest[i] == jobs[i + 1];
      assert rid in JobIds(rest) ==> rid in JobIds(jobs);
      assert Rid(j) !in JobIds(rest);
    }
  }

  lemma JobIdsCons(j: Job, jobs: seq<Job>)
    ensures JobIds([j] + jobs) == {Rid(j)} + JobIds(jobs)
  {
    var all := [j] + jobs;
    assert forall i :: 0 <= i < |jobs| ==> all[i + 1] == jobs[i];
    assert all[0] == j;
  }

  lemma {:induction false} SelectIs(jobs: seq<Job>, existing: set<string>)
    requires DistinctJobs(jobs)
    ensures DistinctJobs(Select(jobs, existing))
    ensures forall j :: j in Select(jobs, existing) <==> j in jobs && Rid(j) !in existing
    ensures JobIds(Select(jobs, existing)) == JobIds(jobs) - existing
  {
    if jobs != [] {
      var j, rest := jobs[0], jobs[1..];
      assert jobs == [j] + rest;
      SelectIs(rest, existing);
      JobIdsCons(j, rest);
      if Rid(j) !in existing {
        JobIdsCons(j, Select(rest, existing));
        assert Rid(j) !in JobIds(rest);
      }
    }
  }

  // ---------- whole runs ----------

  /** What a run that is not a rehearsal and is not aborted leaves at a request id. */
  lemma AfterRun(db: Db, jobs: seq<Job>, args: Args, faults: Faults, o: Oracles, rid: string)
    requires DistinctJobs(jobs) && !args.dryRun && !Aborts(db, jobs, args, faults)
    ensures var db' := RunDb(db, jobs, args, faults, o);
            rid !in JobIds(Todo(db, jobs, args)) ==> GroupDb(db', rid) == GroupDb(db, rid)
    ensures var db' := RunDb(db, jobs, args, faults, o);
            forall j :: j in Todo(db, jobs, args) && Rid(j) == rid ==>
              GroupDb(db', rid) ==
                if rid in faults.broken then (if args.force then EMPTY else GroupDb(db, rid))
                else if args.force then BuildRows(j, o)
                else Append(GroupDb(db, rid), BuildRows(j, o))
  {
    var todo := Todo(db, jobs, args);
    SelectIs(jobs, if args.force then {} else RowIds(db.requests));
    var db1 := if Deletes(db, jobs, args) then WithoutDb(db, JobIds(todo)) else db;
    GroupWithoutDb(db, JobIds(todo), rid);
    WriteAllGroups(db1, todo, faults.broken, o, rid);
    forall j | j in todo && Rid(j) == rid
      ensures rid in JobIds(todo)
      ensures rid !in faults.broken ==>
        GroupDb(WriteAll(db1, todo, faults.broken, o), rid) == Append(GroupDb(db1, rid), BuildRows(j, o))
    {
      var i :| 0 <= i < |todo| && todo[i] == j;
      AppendEmpty(BuildRows(j, o));
    }
    forall j | j in todo ensures Append(EMPTY, BuildRows(j, o)) == BuildRows(j, o) { AppendEmpty(BuildRows(j, o)); }
  }

  /** A history is in the tables once and completely, or not at all. */
  ghost predicate Settled(db: Db, h: History, o: Oracles) {
    GroupDb(db, RequestId(h.id)) == EMPTY
    || exists kbs :: GroupDb(db, RequestId(h.id)) == BuildRows(Job(h, kbs), o)
  }

  lemma {:induction false} RowIdsGroup(rows: seq<Row>, rid: string)
    ensures rid in RowIds(rows) <==> Group(rows, rid) != []
  {
    if rows != [] {
      RowIdsGroup(rows[1..], rid);
      assert RowIds(rows) == {rows[0].rid} + RowIds(rows[1..]) by {
        assert rows == [rows[0]] + rows[1..];
      }
    }
  }

  /** Exactly once, over any runs: forced or not, rehearsed, aborted, with any transactions failing and
      any selection of the histories, every history stays settled. */
  lemma RunKeepsSettled(db: Db, jobs: seq<Job>, args: Args, faults: Faults, o: Oracles, h: History)
    requires DistinctJobs(jobs) && Settled(db, h, o)
    requires forall j :: j in jobs && Rid(j) == RequestId(h.id) ==> j.history == h
    ensures Settled(RunDb(db, jobs, args, faults, o), h, o)
  {
    var rid, todo := RequestId(h.id), Todo(db, jobs, args);
    if !args.dryRun && !Aborts(db, jobs, args, faults) {
      AfterRun(db, jobs, args, faults, o, rid);
      SelectIs(jobs, if args.force then {} else RowIds(db.requests));
      if rid in JobIds(todo) {
        var i :| 0 <= i < |todo| && Rid(todo[i]) == rid;
        var j := todo[i];
        assert j in todo && j == Job(h, j.kbs);
        RowIdsGroup(db.requests, rid);
        AppendEmpty(BuildRows(j, o));
      }
    }
  }

  /** Rows of other requests are left as they are, in their order. */
  lemma RunLeavesOthers(db: Db, jobs: seq<Job>, args: Args, faults: Faults, o: Oracles, ids: set<string>)
    requires JobIds(jobs) <= ids
    ensures WithoutDb(RunDb(db, jobs, args, faults, o), ids) == WithoutDb(db, ids)
  {
    var existing := if args.force then {} else RowIds(db.requests);
    var todo := Todo(db, jobs, args);
    SelectIds(jobs, existing);
    WithoutTwice(db, JobIds(todo), ids);
    WriteAllOutside(if Deletes(db, jobs, args) then WithoutDb(db, JobIds(todo)) else db, todo, faults.broken, o, ids);
  }

  lemma {:induction false} SelectIds(jobs: seq<Job>, existing: set<string>)
    ensures JobIds(Select(jobs, existing)) <= JobIds(jobs)
  {
    if jobs != [] {
      SelectIds(jobs[1..], existing);
      assert jobs == [jobs[0]] + jobs[1..];
      JobIdsCons(jobs[0], jobs[1..]);
      JobIdsCons(jobs[0], Select(jobs[1..], existing));
    }
  }

  lemma {:induction false} WithoutConcat(a: seq<Row>, b: seq<Row>, ids: set<string>)
    ensures Without(a + b, ids) == Without(a, ids) + Without(b, ids)
  {
    if a == [] {
      assert a + b == b;
    } else {
      assert (a + b)[1..] == a[1..] + b;
      WithoutConcat(a[1..], b, ids);
    }
  }

  lemma {:induction false} WithoutSubset(rows: seq<Row>, some: set<string>, ids: set<string>)
    requires some <= ids
    ensures Without(Without(rows, some), ids) == Without(rows, ids)
  {
    if rows != [] {
      WithoutSubset(rows[1..], some, ids);
      WithoutConcat(if rows[0].rid in some then [] else [rows[0]], Without(rows[1..], some), ids);
    }
  }

  lemma WithoutTwice(db: Db, some: set<string>, ids: set<string>)
    requires some <= ids
    ensures WithoutDb(WithoutDb(db, some), ids) == WithoutDb(db, ids)
  {
    WithoutSubset(db.requests, some, ids);
    WithoutSubset(db.steps, some, ids);
    WithoutSubset(db.hits, some, ids);
    WithoutSubset(db.adoptions, some, ids);
  }

  lemma {:induction false} WithoutOwn(rows: seq<Row>, rid: string, ids: set<string>)
    requires AllOf(rows, rid) && rid in ids
    ensures Without(rows, ids) == []
  {
    if rows != [] { WithoutOwn(rows[1..], rid, ids); }
  }

  lemma AppendOutside(db: Db, j: Job, o: Oracles, ids: set<string>)
    requires Rid(j) in ids
    ensures WithoutDb(Append(db, BuildRows(j, o)), ids) == WithoutDb(db, ids)
  {
    var h, rows := j.history, BuildRows(j, o);
    StepsOwn(h, h.steps, j.kbs, o);
    HitsOwn(h, MatchHits(h.steps), o);
    AdoptionsOwn(h, h.refs);
    DedupOwn(ToSteps(h, h.steps, j.kbs, o), {}, Rid(j));
    DedupOwn(ToHits(h, MatchHits(h.steps), o), {}, Rid(j));
    DedupOwn(ToAdoptions(h, h.refs), {}, Rid(j));
    WithoutOwn(rows.requests, Rid(j), ids);
    WithoutOwn(rows.steps, Rid(j), ids);
    WithoutOwn(rows.hits, Rid(j), ids);
    WithoutOwn(rows.adoptions, Rid(j), ids);
    WithoutConcat(db.requests, rows.requests, ids);
    WithoutConcat(db.steps, rows.steps, ids);
    WithoutConcat(db.hits, rows.hits, ids);
    WithoutConcat(db.adoptions, rows.adoptions, ids);
  }

  lemma {:induction false} WriteAllOutside(db: Db, jobs: seq<Job>, broken: set<string>, o: Oracles, ids: set<string>)
    requires JobIds(jobs) <= ids
    ensures WithoutDb(WriteAll(db, jobs, broken, o), ids) == WithoutDb(db, ids)
    decreases |jobs|
  {
    if jobs != [] {
      var j := jobs[0];
      assert Rid(j) in JobIds(jobs);
      assert JobIds(jobs[1..]) <= JobIds(jobs) by { assert jobs == [j] + jobs[1..]; }
      AppendOutside(db, j, o, ids);
      WriteAllOutside(if Rid(j) in broken then db else Append(db, BuildRows(j, o)), jobs[1..], broken, o, ids);
    }
  }

  /** After a run exactly the histories whose transaction failed and that had no request row before (or
      lost it to the forced deletion) are still to do; a second plain run takes up only those. */
  lemma StillToDo(db: Db, jobs: seq<Job>, args: Args, faults: Faults, o: Oracles, again: seq<Job>, j: Job)
    requires DistinctJobs(jobs) && DistinctJobs(again) && JobIds(again) == JobIds(jobs)
    requires !args.dryRun && !Aborts(db, jobs, args, faults)
    ensures j in Todo(RunDb(db, jobs, args, faults, o), again, Args(false, false)) <==>
      j in again && Rid(j) in faults.broken && Rid(j) in JobIds(Todo(db, jobs, args))
  {
    var db' := RunDb(db, jobs, args, faults, o);
    var todo := Todo(db, jobs, args);
    SelectIs(again, RowIds(db'.requests));
    SelectIs(jobs, if args.force then {} else RowIds(db.requests));
    if j in again {
      var rid := Rid(j);
      assert rid in JobIds(again);
      AfterRun(db, jobs, args, faults, o, rid);
      RowIdsGroup(db.requests, rid);
      RowIdsGroup(db'.requests, rid);
      if rid in JobIds(todo) {
        var i :| 0 <= i < |todo| && Rid(todo[i]) == rid;
        assert todo[i] in todo;
        assert BuildRows(todo[i], o).requests != [];
      }
    }
  }

  /** Twice is once: a second plain run after one without failures writes nothing and skips all. */
  lemma SecondRunIdle(db: Db, jobs: seq<Job>, args: Args, faults: Faults, o: Oracles, again: seq<Job>, faults': Faults)
    requires DistinctJobs(jobs) && DistinctJobs(again) && JobIds(again) == JobIds(jobs)
    requires !args.dryRun && !Aborts(db, jobs, args, faults) && faults.broken !! JobIds(Todo(db, jobs, args))
    ensures var db' := RunDb(db, jobs, args, faults, o);
            Todo(db', again, Args(false, false)) == [] && RunDb(db', again, Args(false, false), faults', o) == db'
  {
    var todo := Todo(RunDb(db, jobs, args, faults, o), again, Args(false, false));
    if todo != [] {
      StillToDo(db, jobs, args, faults, o, again, todo[0]);
    }
  }

  /** A forced run whose transaction of a history fails has removed the rows it had: until the next run
      the history is not in the tables. */
  lemma ForcedFailureLoses(db: Db, jobs: seq<Job>, faults: Faults, o: Oracles, j: Job)
    requires DistinctJobs(jobs) && j in jobs && Rid(j) in faults.broken && !faults.deletion
    ensures GroupDb(RunDb(db, jobs, Args(true, false), faults, o), Rid(j)) == EMPTY
  {
    SelectIs(jobs, {});
    AfterRun(db, jobs, Args(true, false), faults, o, Rid(j));
  }

  // ---------- request ids ----------

  /** Two histories share a request id exactly when their ids agree in the first 59 characters. */
  lemma RequestIdClashIff(a: string, b: string)
    ensures RequestId(a) == RequestId(b) <==> Take(a, REQUEST_ID_MAX - |HIST_PREFIX|) == Take(b, REQUEST_ID_MAX - |HIST_PREFIX|)
  {
    RequestIdIs(a);
    RequestIdIs(b);
    var n := REQUEST_ID_MAX - |HIST_PREFIX|;
    assert (HIST_PREFIX + Take(a, n))[5..] == Take(a, n) && (HIST_PREFIX + Take(b, n))[5..] == Take(b, n);
  }

  lemma RequestIdIs(a: string)
    ensures RequestId(a) == HIST_PREFIX + Take(a, REQUEST_ID_MAX - |HIST_PREFIX|)
  {
  }

  /** Histories of different ids of at most 59 characters make distinct jobs. */
  lemma ShortIdsAreDistinct(jobs: seq<Job>)
    requires forall i, k :: 0 <= i < k < |jobs| ==> jobs[i].history.id != jobs[k].history.id
    requires forall i :: 0 <= i < |jobs| ==> |jobs[i].history.id| <= 59
    ensures DistinctJobs(jobs)
  {
    forall i, k | 0 <= i < k < |jobs| ensures Rid(jobs[i]) != Rid(jobs[k]) {
      RequestIdClashIff(jobs[i].history.id, jobs[k].history.id);
    }
  }

  // ---------- deduplication ----------

  predicate FirstOfKey(rows: seq<Row>, i: int) {
    0 <= i < |rows| && forall k :: 0 <= k < i ==> DedupKey(rows[k]) != DedupKey(rows[i])
  }

  /** Deduplicated rows have different keys, none of them seen before; every other key is represented,
      by the first row that has it. */
  lemma {:induction false} DedupIs(rows: seq<Row>, seen: set<(string, Option<string>)>)
    ensures var out := Dedup(rows, seen);
            && (forall i, k :: 0 <= i < k < |out| ==> DedupKey(out[i]) != DedupKey(out[k]))
            && (forall r :: r in out ==> r in rows && DedupKey(r) !in seen)
            && (forall i :: FirstOfKey(rows, i) && DedupKey(rows[i]) !in seen ==> rows[i] in out)
  {
    if rows != [] {
      var r, rest := rows[0], rows[1..];
      assert rows == [r] + rest;
      var seen' := if DedupKey(r) in seen then seen else seen + {DedupKey(r)};
      DedupIs(rest, seen');
      var out := Dedup(rows, seen);
      forall i | FirstOfKey(rows, i) && DedupKey(rows[i]) !in seen ensures rows[i] in out {
        if i > 0 {
          assert rows[i] == rest[i - 1] && DedupKey(rows[0]) != DedupKey(rows[i]);
          assert forall k :: 0 <= k < i - 1 ==> rest[k] == rows[k + 1];
          assert FirstOfKey(rest, i - 1);
        }
      }
    }
  }
}
