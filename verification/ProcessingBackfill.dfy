/** Backfill of the processing task events from the documents' current states.

    The table has a uniqueness constraint on tenant and task id, so a repeated insertion is ignored
    row by row; rows are written in batches of one transaction each. */
module ProcessingBackfill {
  import opened Sequences
  import opened Options
  import opened Texts
  import opened Decimals
  import opened DetailTrim

  const BATCH_SIZE: nat := 200

  datatype Kind = Parse | Extract | Compile

  function KindName(k: Kind): string {
    match k
    case Parse => "parse"
    case Extract => "extract"
    case Compile => "compile"
  }

  /** A document joined with the type of its knowledge base; an empty status stands for NULL. */
  datatype Doc = Doc(id: string, tenant: string, kb: Option<string>, kbType: string,
                     status: string, ontology: string, compile: string,
                     error: Option<string>, ontologyError: Option<string>, compileError: Option<string>,
                     generation: Option<int>, started: int, finished: int)

  datatype TaskRow = TaskRow(tenant: string, task: string, asset: string, kb: Option<string>, kind: Kind,
                             success: bool, error: Option<string>, started: int, finished: int)

  datatype Counts = Counts(inFlight: nat, unknownType: nat, noKb: nat)

  // ---------- rows of one document ----------

  function Generation(d: Doc): int { if d.generation.Some? then d.generation.value else 0 }

  function TaskId(doc: string, kind: Kind, generation: int): string {
    "bf:" + (doc + (":" + (KindName(kind) + (":" + Signed(generation)))))
  }

  function ClipError(e: Option<string>): Option<string> {
    if e.Some? && e.value != "" then Some(Take(e.value, 1000)) else None
  }

  /** `_task_row` */
  function ToRow(d: Doc, kind: Kind, success: bool, error: Option<string>): TaskRow {
    TaskRow(d.tenant, TaskId(d.id, kind, Generation(d)), d.id, if d.kb.Some? then Some(Take(d.kb.value, 128)) else None,
            kind, success, ClipError(error), d.started, d.finished)
  }

  predicate InFlight(status: string) { status == "pending" || status == "parsing" || status == "ingesting" }

  predicate Wiki(kbType: string) { kbType == "openkb" || kbType == "jonex_wiki" }

  /** The outcome a document's state tells of a stage; none when the stage has not ended or does not apply. */
  function Outcome(d: Doc, kind: Kind): Option<bool> {
    match kind
    case Parse => Ended(Strip(d.status), "ready")
    case Extract =>
      if Strip(d.kbType) == "" || Wiki(Strip(d.kbType)) then None else Ended(Strip(d.ontology), "ready")
    case Compile => Ended(Strip(d.compile), "compiled")
  }

  function Ended(status: string, good: string): Option<bool> {
    if status == good then Some(true) else if status == "failed" then Some(false) else None
  }

  function StageError(d: Doc, kind: Kind): Option<string> {
    match kind
    case Parse => d.error
    case Extract => d.ontologyError
    case Compile => d.compileError
  }

  function StageRows(d: Doc, kind: Kind): seq<TaskRow> {
    match Outcome(d, kind)
    case None => []
    case Some(success) => [ToRow(d, kind, success, if success then None else StageError(d, kind))]
  }

  /** The rows a document stands for: at most one of every stage. */
  function DocRows(d: Doc): seq<TaskRow> {
    StageRows(d, Parse) + StageRows(d, Extract) + StageRows(d, Compile)
  }

  function DocsRows(docs: seq<Doc>): seq<TaskRow> {
    if docs == [] then [] else DocRows(docs[0]) + DocsRows(docs[1..])
  }

  function DocCounts(d: Doc): Counts {
    Counts(if InFlight(Strip(d.status)) then 1 else 0,
           if Strip(d.kbType) == "" then 1 else 0,
           if d.kb.None? || Strip(d.kb.value) == "" then 1 else 0)
  }

  function AddCounts(a: Counts, b: Counts): Counts {
    Counts(a.inFlight + b.inFlight, a.unknownType + b.unknownType, a.noKb + b.noKb)
  }

  function DocsCounts(docs: seq<Doc>): Counts {
    if docs == [] then Counts(0, 0, 0) else AddCounts(DocCounts(docs[0]), DocsCounts(docs[1..]))
  }

  // ---------- the table ----------

  function Key(r: TaskRow): (string, string) { (r.tenant, r.task) }

  predicate HasKey(t: seq<TaskRow>, k: (string, string)) { exists i :: 0 <= i < |t| && Key(t[i]) == k }

  predicate Unique(t: seq<TaskRow>) {
    forall i, j :: 0 <= i < j < |t| ==> Key(t[i]) != Key(t[j])
  }

  /** INSERT ... ON CONFLICT DO NOTHING, row by row. */
  function Insert(t: seq<TaskRow>, rows: seq<TaskRow>): seq<TaskRow>
    decreases |rows|
  {
    if rows == [] then t
    else Insert(if HasKey(t, Key(rows[0])) then t else t + [rows[0]], rows[1..])
  }

  /** The rows whose batch is not rolled back; `at` is the position of the first row. */
  function Survivors(rows: seq<TaskRow>, at: nat, broken: set<nat>): seq<TaskRow> {
    if rows == [] then []
    else (if at / BATCH_SIZE in broken then [] else [rows[0]]) + Survivors(rows[1..], at + 1, broken)
  }

  predicate Backfilled(r: TaskRow) { "bf:" <= r.task }

  function Assets(rows: seq<TaskRow>): set<string> { set i | 0 <= i < |rows| :: rows[i].asset }

  /** DELETE ... WHERE processing_task_id LIKE 'bf:%' AND asset_id = ANY(ids) */
  function Without(t: seq<TaskRow>, ids: set<string>): seq<TaskRow> {
    if t == [] then []
    else (if Backfilled(t[0]) && t[0].asset in ids then [] else [t[0]]) + Without(t[1..], ids)
  }

  /** The rows that the deletion selects. */
  function Selected(t: seq<TaskRow>, ids: set<string>): seq<TaskRow> {
    if t == [] then []
    else (if Backfilled(t[0]) && t[0].asset in ids then [t[0]] else []) + Selected(t[1..], ids)
  }

  datatype Args = Args(force: bool, dryRun: bool)

  datatype Faults = Faults(deletion: bool, broken: set<nat>)

  predicate Deletes(pending: seq<TaskRow>, args: Args) { args.force && !args.dryRun && pending != [] }

  predicate Aborts(pending: seq<TaskRow>, args: Args, faults: Faults) { Deletes(pending, args) && faults.deletion }

  function WriteTable(t: seq<TaskRow>, pending: seq<TaskRow>, args: Args, faults: Faults): seq<TaskRow> {
    if args.dryRun || Aborts(pending, args, faults) then t
    else Insert(if Deletes(pending, args) then Without(t, Assets(pending)) else t, Survivors(pending, 0, faults.broken))
  }

  /** The table after `_backfill_processing`. */
  function RunTable(t: seq<TaskRow>, docs: seq<Doc>, args: Args, faults: Faults): seq<TaskRow> {
    WriteTable(t, DocsRows(docs), args, faults)
  }

  /** The pending rows that a run does not write although it was to. */
  function Lost(pending: seq<TaskRow>, args: Args, faults: Faults): int {
    if args.dryRun || Aborts(pending, args, faults) then 0 else |pending| - |Survivors(pending, 0, faults.broken)|
  }

  // ---------- the store ----------

  class TaskStore {
    var rows: seq<TaskRow>
    var counts: Counts
    var done: nat
    var failed: nat
    var rowCount: nat

    /** `_build_task_rows` */
    method BuildTaskRows(d: Doc) returns (out: seq<TaskRow>)
      modifies this`counts
      ensures out == DocRows(d)
      ensures counts == AddCounts(old(counts), DocCounts(d))
    {
      var parsed := ParseRows(d);
      var extracted := ExtractRows(d);
      var compiled := CompileRows(d);
      out := parsed + extracted + compiled;
      if d.kb.None? || Strip(d.kb.value) == "" {
        counts := counts.(noKb := counts.noKb + 1);
      }
    }

    method ParseRows(d: Doc) returns (out: seq<TaskRow>)
      modifies this`counts
      ensures out == StageRows(d, Parse)
      ensures counts == old(counts).(inFlight := old(counts).inFlight + DocCounts(d).inFlight)
    {
      out := [];
      var status := Strip(d.status);
      if InFlight(status) {
        counts := counts.(inFlight := counts.inFlight + 1);
      } else if status == "ready" {
        out := [ToRow(d, Parse, true, None)];
      } else if status == "failed" {
        out := [ToRow(d, Parse, false, d.error)];
      }
    }

    method ExtractRows(d: Doc) returns (out: seq<TaskRow>)
      modifies this`counts
      ensures out == StageRows(d, Extract)
      ensures counts == old(counts).(unknownType := old(counts).unknownType + DocCounts(d).unknownType)
    {
      out := [];
      var kbType := Strip(d.kbType);
      if kbType == "" {
        counts := counts.(unknownType := counts.unknownType + 1);
      } else if !Wiki(kbType) {
        var ontology := Strip(d.ontology);
        if ontology == "ready" {
          out := [ToRow(d, Extract, true, None)];
        } else if ontology == "failed" {
          out := [ToRow(d, Extract, false, d.ontologyError)];
        }
      }
    }

    method CompileRows(d: Doc) returns (out: seq<TaskRow>)
      ensures out == StageRows(d, Compile)
    {
      out := [];
      var compile := Strip(d.compile);
      if compile == "compiled" {
        out := [ToRow(d, Compile, true, None)];
      } else if compile == "failed" {
        out := [ToRow(d, Compile, false, d.compileError)];
      }
    }

    method BuildAll(docs: seq<Doc>) returns (pending: seq<TaskRow>)
      modifies this`counts
      ensures pending == DocsRows(docs)
      ensures counts == AddCounts(old(counts), DocsCounts(docs))
    {
      pending := [];
      var i := 0;
      while i < |docs|
        invariant 0 <= i <= |docs|
        invariant pending + DocsRows(docs[i..]) == DocsRows(docs)
        invariant AddCounts(counts, DocsCounts(docs[i..])) == AddCounts(old(counts), DocsCounts(docs))
      {
        assert docs[i..][0] == docs[i] && docs[i..][1..] == docs[i + 1..];
        ghost var before := counts;
        var rows := BuildTaskRows(docs[i]);
        CountsRebracket(before, DocCounts(docs[i]), DocsCounts(docs[i + 1..]));
        Associate(pending, rows, DocsRows(docs[i + 1..]));
        pending := pending + rows;
        i := i + 1;
      }
      assert pending + [] == pending;
    }

    /** One transaction of `_INSERT_TASK`. */
    method InsertBatch(batch: seq<TaskRow>)
      modifies this`rows
      ensures rows == Insert(old(rows), batch)
    {
      var i := 0;
      while i < |batch|
        invariant 0 <= i <= |batch|
        invariant Insert(rows, batch[i..]) == Insert(old(rows), batch)
      {
        assert batch[i..][0] == batch[i] && batch[i..][1..] == batch[i + 1..];
        if !HasKey(rows, Key(batch[i])) {
          rows := rows + [batch[i]];
        }
        i := i + 1;
      }
    }

    /** The loop over batches: every pending row is either written or counted as failed. */
    method WriteBatches(pending: seq<TaskRow>, broken: set<nat>) returns (written: nat)
      modifies this`rows, this`failed
      ensures rows == Insert(old(rows), Survivors(pending, 0, broken))
      ensures written == |Survivors(pending, 0, broken)|
      ensures written + failed == |pending| + old(failed)
    {
      written := 0;
      var start := 0;
      var batches := 0;
      while start < |pending|
        invariant start == if batches * BATCH_SIZE <= |pending| then batches * BATCH_SIZE else |pending|
        invariant rows == Insert(old(rows), Survivors(pending[..start], 0, broken))
        invariant written == |Survivors(pending[..start], 0, broken)|
        invariant written + failed == start + old(failed)
      {
        var end := if start + BATCH_SIZE <= |pending| then start + BATCH_SIZE else |pending|;
        var batch := pending[start..end];
        ghost var settled := Survivors(pending[..start], 0, broken);
        NextBatch(pending, batches, start, end, broken);
        InsertAppend(old(rows), settled, if batches in broken then [] else batch);
        if batches !in broken {
          InsertBatch(batch);
          written := written + |batch|;
        } else {
          failed := failed + |batch|;
        }
        start := end;
        batches := batches + 1;
      }
      assert pending[..start] == pending;
    }

    method DeleteTasks(ids: set<string>)
      modifies this`rows
      ensures rows == Without(old(rows), ids)
    {
      var kept: seq<TaskRow> := [];
      var i := 0;
      while i < |rows|
        invariant 0 <= i <= |rows|
        invariant kept + Without(rows[i..], ids) == Without(rows, ids)
      {
        var row := rows[i];
        assert rows[i..][0] == row && rows[i..][1..] == rows[i + 1..];
        if !(Backfilled(row) && row.asset in ids) {
          assert kept + ([row] + Without(rows[i + 1..], ids)) == (kept + [row]) + Without(rows[i + 1..], ids);
          kept := kept + [row];
        } else {
          assert [] + Without(rows[i + 1..], ids) == Without(rows[i + 1..], ids);
        }
        i := i + 1;
      }
      assert kept + [] == kept;
      rows := kept;
    }

    /** The part of `_backfill_processing` after the rows are built from a number of documents. */
    method WriteTasks(pending: seq<TaskRow>, docs: nat, args: Args, faults: Faults) returns (ok: bool)
      modifies this`rows, this`failed, this`rowCount, this`done
      ensures rows == WriteTable(old(rows), pending, args, faults)
      ensures ok <==> !Aborts(pending, args, faults)
      ensures done == old(done) + if ok then docs else 0
      ensures rowCount == |pending| - Lost(pending, args, faults)
      ensures failed == old(failed) + Lost(pending, args, faults)
    {
      rowCount := |pending|;
      if args.dryRun {
        done := done + docs;
        return true;
      }
      if args.force && pending != [] {
        if faults.deletion {
          return false;
        }
        DeleteTasks(Assets(pending));
      }
      var written := WriteBatches(pending, faults.broken);
      rowCount := written;
      done := done + docs;
      ok := true;
    }

    /** `_backfill_processing` */
    method BackfillProcessing(docs: seq<Doc>, args: Args, faults: Faults) returns (ok: bool, ghost pending: seq<TaskRow>)
      modifies this
      ensures pending == DocsRows(docs)
      ensures rows == WriteTable(old(rows), pending, args, faults)
      ensures counts == AddCounts(old(counts), DocsCounts(docs))
      ensures ok <==> !Aborts(pending, args, faults)
      ensures done == old(done) + if ok then |docs| else 0
      ensures rowCount == |pending| - Lost(pending, args, faults)
      ensures failed == old(failed) + Lost(pending, args, faults)
    {
      var built := BuildAll(docs);
      pending := built;
      ok := WriteTasks(built, |docs|, args, faults);
    }
  }

  lemma CountsRebracket(a: Counts, b: Counts, c: Counts)
    ensures AddCounts(a, AddCounts(b, c)) == AddCounts(AddCounts(a, b), c)
  {
  }

  // ---------- batches ----------

  lemma {:induction false} SurvivorsSplit(a: seq<TaskRow>, b: seq<TaskRow>, at: nat, broken: set<nat>)
    ensures Survivors(a + b, at, broken) == Survivors(a, at, broken) + Survivors(b, at + |a|, broken)
  {
    if a == [] {
      assert a + b == b;
    } else {
      assert (a + b)[1..] == a[1..] + b;
      SurvivorsSplit(a[1..], b, at + 1, broken);
    }
  }

  /** A batch survives as a whole or not at all. */
  lemma {:induction false} SurvivorsBatch(rows: seq<TaskRow>, n: nat, skip: nat, broken: set<nat>)
    requires skip + |rows| <= BATCH_SIZE
    ensures Survivors(rows, n * BATCH_SIZE + skip, broken) == if n in broken then [] else rows
  {
    if rows != [] {
      assert (n * BATCH_SIZE + skip) / BATCH_SIZE == n;
      SurvivorsBatch(rows[1..], n, skip + 1, broken);
    }
  }

  /** One more batch: its rows follow those already written, unless it is broken. */
  lemma NextBatch(rows: seq<TaskRow>, n: nat, start: nat, end: nat, broken: set<nat>)
    requires start == n * BATCH_SIZE && start <= end <= |rows| && end - start <= BATCH_SIZE
    ensures Survivors(rows[..end], 0, broken) ==
            Survivors(rows[..start], 0, broken) + if n in broken then [] else rows[start..end]
  {
    assert rows[..start] + rows[start..end] == rows[..end];
    SurvivorsSplit(rows[..start], rows[start..end], 0, broken);
    SurvivorsBatch(rows[start..end], n, 0, broken);
  }

  lemma {:induction false} NoneBroken(rows: seq<TaskRow>, at: nat, broken: set<nat>)
    requires broken == {}
    ensures Survivors(rows, at, broken) == rows
  {
    if rows != [] {
      NoneBroken(rows[1..], at + 1, broken);
    }
  }

  lemma {:induction false} SurvivorsAmong(rows: seq<TaskRow>, at: nat, broken: set<nat>, k: (string, string))
    requires HasKey(Survivors(rows, at, broken), k)
    ensures HasKey(rows, k)
  {
    if rows != [] {
      var rest := Survivors(rows[1..], at + 1, broken);
      if at / BATCH_SIZE !in broken && Key(rows[0]) == k {
        assert Key(rows[0]) == k;
      } else {
        KeyAfter(if at / BATCH_SIZE in broken then [] else [rows[0]], rest, k);
        SurvivorsAmong(rows[1..], at + 1, broken, k);
        KeyAfter([rows[0]], rows[1..], k);
        assert [rows[0]] + rows[1..] == rows;
      }
    }
  }

  lemma KeyAfter(a: seq<TaskRow>, b: seq<TaskRow>, k: (string, string))
    ensures HasKey(a + b, k) <==> HasKey(a, k) || HasKey(b, k)
  {
    if HasKey(a, k) {
      var i :| 0 <= i < |a| && Key(a[i]) == k;
      assert Key((a + b)[i]) == k;
    }
    if HasKey(b, k) {
      var i :| 0 <= i < |b| && Key(b[i]) == k;
      assert Key((a + b)[|a| + i]) == k;
    }
  }

  // ---------- insertion that ignores conflicts ----------

  lemma {:induction false} InsertAppend(t: seq<TaskRow>, a: seq<TaskRow>, b: seq<TaskRow>)
    ensures Insert(t, a + b) == Insert(Insert(t, a), b)
    decreases |a|
  {
    if a == [] {
      assert a + b == b;
    } else {
      assert (a + b)[1..] == a[1..] + b;
      InsertAppend(if HasKey(t, Key(a[0])) then t else t + [a[0]], a[1..], b);
    }
  }

  /** Existing rows stay as they are and keys stay unique. */
  lemma {:induction false} InsertKeeps(t: seq<TaskRow>, rows: seq<TaskRow>)
    ensures t <= Insert(t, rows)
    ensures Unique(t) ==> Unique(Insert(t, rows))
    decreases |rows|
  {
    if rows != [] {
      var u := if HasKey(t, Key(rows[0])) then t else t + [rows[0]];
      InsertKeeps(u, rows[1..]);
    }
  }

  /** Exactly the keys of the table and of the rows are in the table afterwards. */
  lemma {:induction false} InsertKeys(t: seq<TaskRow>, rows: seq<TaskRow>, k: (string, string))
    ensures HasKey(Insert(t, rows), k) <==> HasKey(t, k) || HasKey(rows, k)
    decreases |rows|
  {
    if rows != [] {
      var u := if HasKey(t, Key(rows[0])) then t else t + [rows[0]];
      InsertKeys(u, rows[1..], k);
      KeyAfter(t, [rows[0]], k);
      KeyAfter([rows[0]], rows[1..], k);
      assert [rows[0]] + rows[1..] == rows;
      assert [rows[0]][0] == rows[0];
    }
  }

  lemma {:induction false} InsertKnown(t: seq<TaskRow>, rows: seq<TaskRow>)
    requires forall i :: 0 <= i < |rows| ==> HasKey(t, Key(rows[i]))
    ensures Insert(t, rows) == t
    decreases |rows|
  {
    if rows != [] {
      InsertKnown(t, rows[1..]);
    }
  }

  predicate AllNew(t: seq<TaskRow>, rows: seq<TaskRow>) {
    Unique(rows) && forall i :: 0 <= i < |rows| ==> !HasKey(t, Key(rows[i]))
  }

  lemma {:induction false} InsertNew(t: seq<TaskRow>, rows: seq<TaskRow>)
    requires AllNew(t, rows)
    ensures Insert(t, rows) == t + rows
    decreases |rows|
  {
    if rows != [] {
      forall i | 0 <= i < |rows[1..]| ensures !HasKey(t + [rows[0]], Key(rows[1..][i])) {
        KeyAfter(t, [rows[0]], Key(rows[i + 1]));
      }
      InsertNew(t + [rows[0]], rows[1..]);
      assert t + [rows[0]] + rows[1..] == t + rows;
    }
  }

  /** The count of written rows is the number of rows added exactly when nothing conflicted. */
  lemma {:induction false} WrittenIsAddedIff(t: seq<TaskRow>, rows: seq<TaskRow>)
    ensures |Insert(t, rows)| <= |t| + |rows|
    ensures |Insert(t, rows)| == |t| + |rows| <==> AllNew(t, rows)
    decreases |rows|
  {
    if rows != [] {
      var k := Key(rows[0]);
      if HasKey(t, k) {
        WrittenIsAddedIff(t, rows[1..]);
      } else {
        WrittenIsAddedIff(t + [rows[0]], rows[1..]);
        if AllNew(t + [rows[0]], rows[1..]) {
          AllNewCons(t, rows);
        } else if AllNew(t, rows) {
          InsertNew(t, rows);
        }
      }
    }
  }

  lemma AllNewCons(t: seq<TaskRow>, rows: seq<TaskRow>)
    requires rows != [] && !HasKey(t, Key(rows[0])) && AllNew(t + [rows[0]], rows[1..])
    ensures AllNew(t, rows)
  {
    forall i | 0 < i < |rows| ensures !HasKey(t, Key(rows[i])) && Key(rows[i]) != Key(rows[0]) {
      assert rows[1..][i - 1] == rows[i];
      KeyAfter(t, [rows[0]], Key(rows[i]));
      assert [rows[0]][0] == rows[0];
    }
    forall i, j | 0 <= i < j < |rows| ensures Key(rows[i]) != Key(rows[j]) {
      if i > 0 {
        assert rows[1..][i - 1] == rows[i] && rows[1..][j - 1] == rows[j];
      }
    }
  }

  // ---------- task ids ----------

  /** A task id determines document, stage and generation, whatever characters the document id has. */
  lemma TaskIdInjective(d: string, k: Kind, g: int, d': string, k': Kind, g': int)
    requires TaskId(d, k, g) == TaskId(d', k', g')
    ensures d == d' && k == k' && g == g'
  {
    AfterPrefix(d + (":" + (KindName(k) + (":" + Signed(g)))), d' + (":" + (KindName(k') + (":" + Signed(g')))));
    SignedColonFree(g);
    SignedColonFree(g');
    ShiftColon(d, KindName(k), Signed(g));
    ShiftColon(d', KindName(k'), Signed(g'));
    CutLast(d + (":" + KindName(k)), d' + (":" + KindName(k')), Signed(g), Signed(g'));
    SignedInjective(g, g');
    CutLast(d, d', KindName(k), KindName(k'));
  }

  lemma ShiftColon(a: string, b: string, c: string)
    ensures a + (":" + (b + (":" + c))) == (a + (":" + b)) + (":" + c)
  {
  }

  lemma AfterPrefix(a: string, b: string)
    requires "bf:" + a == "bf:" + b
    ensures a == b
  {
    assert ("bf:" + a)[3..] == a && ("bf:" + b)[3..] == b;
  }

  // ---------- rows of documents ----------

  /** The rows of a document say of every stage exactly what its state says, once. */
  lemma DocRowsMean(d: Doc)
    ensures |DocRows(d)| <= 3
    ensures forall i, j :: 0 <= i < j < |DocRows(d)| ==> DocRows(d)[i].kind != DocRows(d)[j].kind
    ensures forall i :: 0 <= i < |DocRows(d)| ==> TellsOutcome(d, DocRows(d)[i])
    ensures forall k :: Outcome(d, k).Some? ==> HasKind(DocRows(d), k)
  {
    StageRowIs(d, Parse);
    StageRowIs(d, Extract);
    StageRowIs(d, Compile);
    ThreeRows(d, StageRows(d, Parse), StageRows(d, Extract), StageRows(d, Compile));
  }

  predicate TellsOutcome(d: Doc, r: TaskRow) {
    && Outcome(d, r.kind) == Some(r.success)
    && r.asset == d.id && r.tenant == d.tenant && r.task == TaskId(d.id, r.kind, Generation(d))
    && (r.success ==> r.error == None)
  }

  predicate HasKind(rows: seq<TaskRow>, k: Kind) { exists i :: 0 <= i < |rows| && rows[i].kind == k }

  predicate StageIs(d: Doc, k: Kind, rows: seq<TaskRow>) {
    if Outcome(d, k).None? then rows == [] else |rows| == 1 && rows[0].kind == k && TellsOutcome(d, rows[0])
  }

  lemma StageRowIs(d: Doc, k: Kind)
    ensures StageIs(d, k, StageRows(d, k))
  {
  }

  lemma ThreeRows(d: Doc, p: seq<TaskRow>, e: seq<TaskRow>, c: seq<TaskRow>)
    requires StageIs(d, Parse, p) && StageIs(d, Extract, e) && StageIs(d, Compile, c)
    ensures var rows := p + e + c;
            && |rows| <= 3
            && (forall i, j :: 0 <= i < j < |rows| ==> rows[i].kind != rows[j].kind)
            && (forall i :: 0 <= i < |rows| ==> TellsOutcome(d, rows[i]))
            && (forall k :: Outcome(d, k).Some? ==> HasKind(rows, k))
  {
    RowsTell(d, p, e, c);
    EveryKind(d, p, e, c);
  }

  function StageOf(i: nat, p: nat, e: nat): Kind { if i < p then Parse else if i < p + e then Extract else Compile }

  lemma RowTells(d: Doc, p: seq<TaskRow>, e: seq<TaskRow>, c: seq<TaskRow>, i: nat)
    requires StageIs(d, Parse, p) && StageIs(d, Extract, e) && StageIs(d, Compile, c) && i < |p + e + c|
    ensures TellsOutcome(d, (p + e + c)[i]) && (p + e + c)[i].kind == StageOf(i, |p|, |e|)
  {
    RowAt(p, e, c, i);
  }

  lemma RowAt(p: seq<TaskRow>, e: seq<TaskRow>, c: seq<TaskRow>, i: nat)
    requires |p| <= 1 && |e| <= 1 && |c| <= 1 && i < |p + e + c|
    ensures (p + e + c)[i] == if i < |p| then p[0] else if i < |p| + |e| then e[0] else c[0]
  {
  }

  lemma RowsTell(d: Doc, p: seq<TaskRow>, e: seq<TaskRow>, c: seq<TaskRow>)
    requires StageIs(d, Parse, p) && StageIs(d, Extract, e) && StageIs(d, Compile, c)
    ensures forall i :: 0 <= i < |p + e + c| ==> TellsOutcome(d, (p + e + c)[i])
    ensures forall i, j :: 0 <= i < j < |p + e + c| ==> (p + e + c)[i].kind != (p + e + c)[j].kind
  {
    forall i | 0 <= i < |p + e + c|
      ensures TellsOutcome(d, (p + e + c)[i]) && (p + e + c)[i].kind == StageOf(i, |p|, |e|)
    {
      RowTells(d, p, e, c, i);
    }
  }

  lemma EveryKind(d: Doc, p: seq<TaskRow>, e: seq<TaskRow>, c: seq<TaskRow>)
    requires StageIs(d, Parse, p) && StageIs(d, Extract, e) && StageIs(d, Compile, c)
    ensures forall k :: Outcome(d, k).Some? ==> HasKind(p + e + c, k)
  {
    forall k | Outcome(d, k).Some? ensures HasKind(p + e + c, k) {
      var at := match k case Parse => 0 case Extract => |p| case Compile => |p| + |e|;
      assert (p + e + c)[at].kind == k;
    }
  }

  // ---------- what the columns say ----------

  predicate Tells(rows: seq<TaskRow>, k: Kind, success: bool) {
    exists i :: 0 <= i < |rows| && rows[i].kind == k && rows[i].success == success
  }

  /** The knowledge base is of a known type and no wiki. */
  predicate Extracts(kbType: string) { kbType != "" && kbType != "openkb" && kbType != "jonex_wiki" }

  /** Which rows a document has, by its columns. */
  lemma RowsOfColumns(d: Doc)
    ensures var rows := DocRows(d);
            && (Tells(rows, Parse, true) <==> IsStripped(d.status, "ready"))
            && (Tells(rows, Parse, false) <==> IsStripped(d.status, "failed"))
            && (Tells(rows, Extract, true) <==> Extracts(Strip(d.kbType)) && IsStripped(d.ontology, "ready"))
            && (Tells(rows, Extract, false) <==> Extracts(Strip(d.kbType)) && IsStripped(d.ontology, "failed"))
            && (Tells(rows, Compile, true) <==> IsStripped(d.compile, "compiled"))
            && (Tells(rows, Compile, false) <==> IsStripped(d.compile, "failed"))
  {
    DocRowsMean(d);
    StripIff(d.status, "ready");
    StripIff(d.status, "failed");
    StripIff(d.ontology, "ready");
    StripIff(d.ontology, "failed");
    StripIff(d.compile, "compiled");
    StripIff(d.compile, "failed");
    forall k, success: bool ensures Tells(DocRows(d), k, success) <==> Outcome(d, k) == Some(success) {
      TellsIff(d, k, success);
    }
  }

  lemma TellsIff(d: Doc, k: Kind, success: bool)
    ensures Tells(DocRows(d), k, success) <==> Outcome(d, k) == Some(success)
  {
    var rows := DocRows(d);
    DocRowsMean(d);
    if Outcome(d, k) == Some(success) {
      var i :| 0 <= i < |rows| && rows[i].kind == k;
      assert TellsOutcome(d, rows[i]);
    }
    if Tells(rows, k, success) {
      var i :| 0 <= i < |rows| && rows[i].kind == k && rows[i].success == success;
      assert TellsOutcome(d, rows[i]);
    }
  }

  /** The error column of the stage, cut; nothing when it is empty. */
  predicate ErrorTells(column: Option<string>, error: Option<string>) {
    if column.Some? && column.value != "" then CutToOption(column, 1000, error) else error == None
  }

  /** How a task id marks its stage. */
  function Mark(k: Kind): string { match k case Parse => ":parse:" case Extract => ":extract:" case Compile => ":compile:" }

  lemma Marked(k: Kind, g: string)
    ensures ":" + (KindName(k) + (":" + g)) == Mark(k) + g
  {
  }

  /** A row carries the columns of its document, and a failed one the error of its own stage. */
  predicate ColumnsTold(d: Doc, r: TaskRow) {
    && r.tenant == d.tenant && r.asset == d.id && CutToOption(d.kb, 128, r.kb)
    && r.started == d.started && r.finished == d.finished
    && r.task == "bf:" + (d.id + (Mark(r.kind) + Signed(if d.generation.Some? then d.generation.value else 0)))
    && if r.success then r.error == None
       else match r.kind
         case Parse => ErrorTells(d.error, r.error)
         case Extract => ErrorTells(d.ontologyError, r.error)
         case Compile => ErrorTells(d.compileError, r.error)
  }

  lemma RowsTellColumns(d: Doc)
    ensures forall r :: r in DocRows(d) ==> ColumnsTold(d, r)
  {
    StageTellsColumns(d, Parse);
    StageTellsColumns(d, Extract);
    StageTellsColumns(d, Compile);
  }

  lemma StageTellsColumns(d: Doc, k: Kind)
    ensures forall r :: r in StageRows(d, k) ==> ColumnsTold(d, r)
  {
    RowTellsColumns(d, k, true);
    RowTellsColumns(d, k, false);
  }

  lemma RowTellsColumns(d: Doc, k: Kind, success: bool)
    ensures ColumnsTold(d, ToRow(d, k, success, if success then None else StageError(d, k)))
  {
    Marked(k, Signed(Generation(d)));
  }

  /** What a document adds to the three counters. */
  lemma CountsOfColumns(d: Doc)
    ensures var c := DocCounts(d);
            && c.inFlight <= 1 && c.unknownType <= 1 && c.noKb <= 1
            && (c.inFlight == 1 <==> IsStripped(d.status, "pending") || IsStripped(d.status, "parsing")
                                     || IsStripped(d.status, "ingesting"))
            && (c.unknownType == 1 <==> IsStripped(d.kbType, ""))
            && (c.noKb == 1 <==> d.kb.None? || IsStripped(d.kb.value, ""))
  {
    StripIff(d.status, "pending");
    StripIff(d.status, "parsing");
    StripIff(d.status, "ingesting");
    StripIff(d.kbType, "");
    if d.kb.Some? { StripIff(d.kb.value, ""); }
  }

  /** Wiki documents and documents of unknown type never get an extraction row, whatever their status says;
      a document in flight gets no parse row. */
  lemma NoFalseRows(d: Doc)
    ensures Wiki(Strip(d.kbType)) || Strip(d.kbType) == "" ==>
              forall i :: 0 <= i < |DocRows(d)| ==> DocRows(d)[i].kind != Extract
    ensures InFlight(Strip(d.status)) ==> forall i :: 0 <= i < |DocRows(d)| ==> DocRows(d)[i].kind != Parse
  {
    DocRowsMean(d);
    assert Ended(Strip(d.status), "ready").Some? ==> !InFlight(Strip(d.status));
  }

  predicate DistinctDocs(docs: seq<Doc>) {
    forall i, j :: 0 <= i < j < |docs| ==> docs[i].id != docs[j].id
  }

  /** A row that tells the truth about its asset: a backfill id names the asset. */
  ghost predicate NamesAsset(r: TaskRow) { Backfilled(r) ==> exists k, g :: r.task == TaskId(r.asset, k, g) }

  ghost predicate NamesAssets(t: seq<TaskRow>) { forall i :: 0 <= i < |t| ==> NamesAsset(t[i]) }

  predicate HasDoc(docs: seq<Doc>, id: string) { exists j :: 0 <= j < |docs| && docs[j].id == id }

  ghost predicate Proper(docs: seq<Doc>, r: TaskRow) { Backfilled(r) && NamesAsset(r) && HasDoc(docs, r.asset) }

  lemma {:induction false} PendingRows(docs: seq<Doc>)
    ensures forall i :: 0 <= i < |DocsRows(docs)| ==> Proper(docs, DocsRows(docs)[i])
  {
    if docs != [] {
      DocRowsMean(docs[0]);
      PendingRows(docs[1..]);
      var first, rest := DocRows(docs[0]), DocsRows(docs[1..]);
      forall i | 0 <= i < |first| ensures Proper(docs, first[i]) {
        assert docs[0].id == first[i].asset;
      }
      forall i | 0 <= i < |rest| ensures Proper(docs, rest[i]) {
        var j :| 0 <= j < |docs[1..]| && docs[1..][j].id == rest[i].asset;
        assert docs[j + 1].id == rest[i].asset;
      }
    }
  }

  /** The pending rows are the rows of all documents. */
  lemma {:induction false} PendingIff(docs: seq<Doc>, r: TaskRow)
    ensures r in DocsRows(docs) <==> exists d :: d in docs && r in DocRows(d)
  {
    if docs != [] {
      PendingIff(docs[1..], r);
      assert forall d :: d in docs <==> d == docs[0] || d in docs[1..];
    }
  }

  /** Distinct documents have rows of distinct keys. */
  lemma {:induction false} PendingUnique(docs: seq<Doc>)
    requires DistinctDocs(docs)
    ensures Unique(DocsRows(docs))
  {
    if docs != [] {
      var d, first, rest := docs[0], DocRows(docs[0]), DocsRows(docs[1..]);
      DocRowsMean(d);
      PendingUnique(docs[1..]);
      PendingRows(docs[1..]);
      forall i, j | 0 <= i < j < |first| ensures Key(first[i]) != Key(first[j]) {
        if first[i].task == first[j].task {
          TaskIdInjective(d.id, first[i].kind, Generation(d), d.id, first[j].kind, Generation(d));
        }
      }
      forall i, j | 0 <= i < |first| && 0 <= j < |rest| ensures Key(first[i]) != Key(rest[j]) {
        if first[i].task == rest[j].task {
          var k, g :| rest[j].task == TaskId(rest[j].asset, k, g);
          TaskIdInjective(d.id, first[i].kind, Generation(d), rest[j].asset, k, g);
          NotLater(docs, rest[j].asset);
        }
      }
      UniqueConcat(first, rest);
    }
  }

  lemma NotLater(docs: seq<Doc>, id: string)
    requires DistinctDocs(docs) && docs != [] && HasDoc(docs[1..], id)
    ensures id != docs[0].id
  {
    var m :| 0 <= m < |docs[1..]| && docs[1..][m].id == id;
    assert docs[m + 1].id == id;
  }

  lemma UniqueConcat(a: seq<TaskRow>, b: seq<TaskRow>)
    requires Unique(a) && Unique(b)
    requires forall i, j :: 0 <= i < |a| && 0 <= j < |b| ==> Key(a[i]) != Key(b[j])
    ensures Unique(a + b)
  {
    var c := a + b;
    forall i, j | 0 <= i < j < |c| ensures Key(c[i]) != Key(c[j]) {
      if i >= |a| {
        assert Key(b[i - |a|]) != Key(b[j - |a|]);
      } else if j >= |a| {
        assert Key(a[i]) != Key(b[j - |a|]);
      }
    }
  }

  // ---------- runs ----------

  /** A run without force only adds: every row there stays in place, keys stay unique, and the new keys are
      exactly those of the surviving rows. */
  lemma PlainRunOnlyAdds(t: seq<TaskRow>, docs: seq<Doc>, args: Args, faults: Faults, k: (string, string))
    requires !args.force && !args.dryRun
    ensures t <= RunTable(t, docs, args, faults)
    ensures Unique(t) ==> Unique(RunTable(t, docs, args, faults))
    ensures HasKey(RunTable(t, docs, args, faults), k) <==>
            HasKey(t, k) || HasKey(Survivors(DocsRows(docs), 0, faults.broken), k)
  {
    var rows := Survivors(DocsRows(docs), 0, faults.broken);
    InsertKeeps(t, rows);
    InsertKeys(t, rows, k);
  }

  /** After an undisturbed run, forced or not, a plain run over the same documents changes nothing, whatever
      fails in it. */
  lemma RerunIdle(t: seq<TaskRow>, docs: seq<Doc>, first: Args, again: Args, faults: Faults)
    requires !first.dryRun && !again.force
    ensures var u := RunTable(t, docs, first, Faults(false, {})); RunTable(u, docs, again, faults) == u
  {
    var pending := DocsRows(docs);
    NoneBroken(pending, 0, {});
    var u := RunTable(t, docs, first, Faults(false, {}));
    SettledIdle(u, docs, again, faults) by {
      forall i | 0 <= i < |pending| ensures HasKey(u, Key(pending[i])) {
        InsertKeys(if Deletes(DocsRows(docs), first) then Without(t, Assets(pending)) else t, pending, Key(pending[i]));
      }
    }
  }

  /** Once every pending key is present, plain runs are idle. */
  lemma SettledIdle(t: seq<TaskRow>, docs: seq<Doc>, args: Args, faults: Faults)
    requires !args.force
    requires forall i :: 0 <= i < |DocsRows(docs)| ==> HasKey(t, Key(DocsRows(docs)[i]))
    ensures RunTable(t, docs, args, faults) == t
  {
    var rows := Survivors(DocsRows(docs), 0, faults.broken);
    forall i | 0 <= i < |rows| ensures HasKey(t, Key(rows[i])) {
      assert HasKey(rows, Key(rows[i]));
      SurvivorsAmong(DocsRows(docs), 0, faults.broken, Key(rows[i]));
    }
    InsertKnown(t, rows);
  }

  /** A row once written survives every later sequence of plain runs, over whatever documents and faults. */
  function Runs(t: seq<TaskRow>, jobs: seq<(seq<Doc>, Faults)>): seq<TaskRow>
    decreases |jobs|
  {
    if jobs == [] then t else Runs(RunTable(t, jobs[0].0, Args(false, false), jobs[0].1), jobs[1..])
  }

  lemma {:induction false} RunsOnlyAdd(t: seq<TaskRow>, jobs: seq<(seq<Doc>, Faults)>)
    ensures t <= Runs(t, jobs)
    ensures Unique(t) ==> Unique(Runs(t, jobs))
    decreases |jobs|
  {
    if jobs != [] {
      PlainRunOnlyAdds(t, jobs[0].0, Args(false, false), jobs[0].1, ("", ""));
      RunsOnlyAdd(RunTable(t, jobs[0].0, Args(false, false), jobs[0].1), jobs[1..]);
    }
  }

  // ---------- forced runs ----------

  lemma {:induction false} WithoutConcat(a: seq<TaskRow>, b: seq<TaskRow>, ids: set<string>)
    ensures Without(a + b, ids) == Without(a, ids) + Without(b, ids)
  {
    if a == [] {
      assert a + b == b;
    } else {
      assert (a + b)[1..] == a[1..] + b;
      WithoutConcat(a[1..], b, ids);
      Associate(if Backfilled(a[0]) && a[0].asset in ids then [] else [a[0]], Without(a[1..], ids), Without(b, ids));
    }
  }

  lemma {:induction false} SelectedConcat(a: seq<TaskRow>, b: seq<TaskRow>, ids: set<string>)
    ensures Selected(a + b, ids) == Selected(a, ids) + Selected(b, ids)
  {
    if a == [] {
      assert a + b == b;
    } else {
      assert (a + b)[1..] == a[1..] + b;
      SelectedConcat(a[1..], b, ids);
      Associate(if Backfilled(a[0]) && a[0].asset in ids then [a[0]] else [], Selected(a[1..], ids), Selected(b, ids));
    }
  }

  lemma {:induction false} AllSelected(rows: seq<TaskRow>, ids: set<string>)
    requires forall i :: 0 <= i < |rows| ==> Backfilled(rows[i]) && rows[i].asset in ids
    ensures Without(rows, ids) == [] && Selected(rows, ids) == rows
  {
    if rows != [] {
      AllSelected(rows[1..], ids);
    }
  }

  /** A deletion leaves rows of the table, none of them selected. */
  lemma {:induction false} WithoutRows(t: seq<TaskRow>, ids: set<string>)
    ensures forall r :: r in Without(t, ids) ==> r in t && !(Backfilled(r) && r.asset in ids)
  {
    if t != [] {
      WithoutRows(t[1..], ids);
    }
  }

  lemma {:induction false} NoneSelected(t: seq<TaskRow>, ids: set<string>)
    requires forall r :: r in t ==> !(Backfilled(r) && r.asset in ids)
    ensures Without(t, ids) == t && Selected(t, ids) == []
  {
    if t != [] {
      NoneSelected(t[1..], ids);
    }
  }

  lemma {:induction false} WithoutUnique(t: seq<TaskRow>, ids: set<string>)
    requires Unique(t)
    ensures Unique(Without(t, ids))
  {
    if t != [] {
      WithoutUnique(t[1..], ids);
      WithoutRows(t[1..], ids);
      UniqueCons(t, Without(t[1..], ids));
    }
  }

  lemma UniqueCons(t: seq<TaskRow>, rest: seq<TaskRow>)
    requires t != [] && Unique(t) && Unique(rest) && forall r :: r in rest ==> r in t[1..]
    ensures Unique([t[0]] + rest)
  {
    forall j | 0 <= j < |rest| ensures Key(t[0]) != Key(rest[j]) {
      assert rest[j] in t[1..];
      var m :| 0 <= m < |t[1..]| && t[1..][m] == rest[j];
      assert t[m + 1] == rest[j];
    }
    UniqueConcat([t[0]], rest);
  }

  lemma {:induction false} SurvivorsIn(rows: seq<TaskRow>, at: nat, broken: set<nat>)
    ensures forall r :: r in Survivors(rows, at, broken) ==> r in rows
    ensures Unique(rows) ==> Unique(Survivors(rows, at, broken))
  {
    if rows != [] {
      SurvivorsIn(rows[1..], at + 1, broken);
      if Unique(rows) {
        UniqueCons(rows, Survivors(rows[1..], at + 1, broken));
      }
    }
  }

  /** A forced run leaves every row that is not a backfill row of a document with rows to write exactly as it
      was, and in place of the others stand exactly the surviving rows of this run: none of an older
      generation, none twice, and none at all of a batch that failed. */
  lemma ForceReplaces(t: seq<TaskRow>, docs: seq<Doc>, args: Args, faults: Faults)
    requires Deletes(DocsRows(docs), args) && !faults.deletion && NamesAssets(t) && DistinctDocs(docs)
    ensures var ids := Assets(DocsRows(docs));
            var u := RunTable(t, docs, args, faults);
            && Without(u, ids) == Without(t, ids)
            && Selected(u, ids) == Survivors(DocsRows(docs), 0, faults.broken)
  {
    var pending := DocsRows(docs);
    var ids := Assets(pending);
    var left, rows := Without(t, ids), Survivors(pending, 0, faults.broken);
    PendingUnique(docs);
    PendingRows(docs);
    SurvivorsIn(pending, 0, faults.broken);
    WithoutRows(t, ids);
    forall i | 0 <= i < |rows| ensures Backfilled(rows[i]) && rows[i].asset in ids && !HasKey(left, Key(rows[i])) {
      assert rows[i] in pending;
      var m :| 0 <= m < |pending| && pending[m] == rows[i];
      assert pending[m].asset in ids;
      OutsideKeys(t, ids, rows[i]);
    }
    InsertNew(left, rows);
    WithoutConcat(left, rows, ids);
    SelectedConcat(left, rows, ids);
    NoneSelected(left, ids);
    AllSelected(rows, ids);
  }

  /** In a truthful table no row outside the selection has the key of a selected one. */
  lemma OutsideKeys(t: seq<TaskRow>, ids: set<string>, r: TaskRow)
    requires NamesAssets(t) && Backfilled(r) && NamesAsset(r) && r.asset in ids
    ensures !HasKey(Without(t, ids), Key(r))
  {
    var left := Without(t, ids);
    WithoutRows(t, ids);
    forall j | 0 <= j < |left| ensures Key(left[j]) != Key(r) {
      assert left[j] in left;
      if left[j].task == r.task {
        var k, g :| r.task == TaskId(r.asset, k, g);
        assert NamesAsset(left[j]);
        var k', g' :| left[j].task == TaskId(left[j].asset, k', g');
        TaskIdInjective(r.asset, k, g, left[j].asset, k', g');
      }
    }
  }

  /** Every run keeps the table truthful and its keys unique. */
  lemma RunKeepsTable(t: seq<TaskRow>, docs: seq<Doc>, args: Args, faults: Faults)
    requires NamesAssets(t) && Unique(t)
    ensures NamesAssets(RunTable(t, docs, args, faults)) && Unique(RunTable(t, docs, args, faults))
  {
    var pending := DocsRows(docs);
    var rows := Survivors(pending, 0, faults.broken);
    var left := if Deletes(DocsRows(docs), args) then Without(t, Assets(pending)) else t;
    WithoutRows(t, Assets(pending));
    WithoutUnique(t, Assets(pending));
    PendingRows(docs);
    SurvivorsIn(pending, 0, faults.broken);
    NamesAssetsPart(left, t);
    NamesAssetsPart(rows, pending);
    InsertNamesAssets(left, rows);
    InsertKeeps(left, rows);
  }

  lemma NamesAssetsPart(a: seq<TaskRow>, b: seq<TaskRow>)
    requires NamesAssets(b) && forall r :: r in a ==> r in b
    ensures NamesAssets(a)
  {
    forall i | 0 <= i < |a| ensures NamesAsset(a[i]) {
      assert a[i] in b;
      var m :| 0 <= m < |b| && b[m] == a[i];
    }
  }

  lemma {:induction false} InsertNamesAssets(t: seq<TaskRow>, rows: seq<TaskRow>)
    requires NamesAssets(t) && NamesAssets(rows)
    ensures NamesAssets(Insert(t, rows))
    decreases |rows|
  {
    if rows != [] {
      InsertNamesAssets(if HasKey(t, Key(rows[0])) then t else t + [rows[0]], rows[1..]);
    }
  }
}
