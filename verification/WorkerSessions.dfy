/** The whole course of a task in a worker: which replies it waits for, what it uploads, and what it ends with. */
module WorkerSessions {
  import opened Options
  import opened Sequences
  import opened WorkerQueue

  /** The worker gets the replies in order, and then waits as `last` says. */
  ghost predicate Plays(t: Task, run: Run, rs: seq<Reply>, u: Task, last: Run)
    decreases |rs|
  {
    if rs == [] then u == t && last == run
    else
      Fits(run.phase, rs[0]) &&
      var (t1, n) := Continue(t, run, rs[0]);
      n.Wait? && Plays(t1, n.run, rs[1..], u, last)
  }

  /** The replies begin when the worker takes a new task. */
  ghost predicate Session(t: Task, id: nat, rs: seq<Reply>, u: Task, last: Run) {
    Fresh(t) && var (t1, n) := Begin(t, id); n.Wait? && Plays(t1, n.run, rs, u, last)
  }

  // ---------- texts and documents ----------

  /** Non-blank texts that replies bring: those of the parser, a transcript, and those of the video analysis. */
  function Texts(rs: seq<Reply>): nat {
    if rs == [] then 0
    else (match rs[0]
          case Parsed(n) => n
          case Heard(speech) => if speech then 1 else 0
          case Analysed(n) => n
          case _ => 0) + Texts(rs[1..])
  }

  function Uploads(rs: seq<Reply>): nat {
    if rs == [] then 0 else (if rs[0].Uploaded? then 1 else 0) + Uploads(rs[1..])
  }

  /** The document ids received, in order. */
  function DocIds(rs: seq<Reply>): seq<string> {
    if rs == [] then []
    else (if rs[0].Uploaded? && rs[0].doc.Some? then [rs[0].doc.value] else []) + DocIds(rs[1..])
  }

  lemma {:induction false} PlaysCount(t: Task, run: Run, rs: seq<Reply>, u: Task, last: Run)
    requires Plays(t, run, rs, u, last) && (run.phase.Parsing? ==> run.texts == 0)
    ensures last.texts == run.texts + Texts(rs) && last.sent == run.sent + Uploads(rs)
    ensures last.docs == run.docs + DocIds(rs) && last.id == run.id && u.tenant == t.tenant && u.source == t.source
    decreases |rs|
  {
    if rs != [] {
      var (t1, n) := Continue(t, run, rs[0]);
      OneCounts(t, run, rs[0]);
      PlaysCount(t1, n.run, rs[1..], u, last);
    }
  }

  lemma OneCounts(t: Task, run: Run, r: Reply)
    requires Fits(run.phase, r) && Continue(t, run, r).1.Wait? && (run.phase.Parsing? ==> run.texts == 0)
    ensures var (t1, n) := Continue(t, run, r);
            && n.run.texts == run.texts + Texts([r]) && n.run.sent == run.sent + Uploads([r])
            && n.run.docs == run.docs + DocIds([r]) && n.run.id == run.id && !n.run.phase.Parsing?
            && t1.tenant == t.tenant && t1.source == t.source
  {
    assert [r][1..] == [] && Texts([]) == 0 && Uploads([]) == 0 && DocIds([]) == [];
  }

  lemma {:induction false} PlaysInPhase(t: Task, run: Run, rs: seq<Reply>, u: Task, last: Run)
    requires InPhase(t, run) && Plays(t, run, rs, u, last)
    ensures InPhase(u, last)
    decreases |rs|
  {
    if rs != [] {
      var (t1, n) := Continue(t, run, rs[0]);
      ContinueIs(t, run, rs[0]);
      PlaysInPhase(t1, n.run, rs[1..], u, last);
    }
  }

  // ---------- the order of the phases ----------

  /** A worker that has set a task failed never announces it completed. */
  lemma NoWayBack(t: Task, run: Run, rs: seq<Reply>, u: Task, last: Run)
    requires Plays(t, run, rs, u, last) && run.phase.Apologising?
    ensures last.phase.Apologising?
  {
  }

  lemma AnnouncingEnds(t: Task, run: Run, rs: seq<Reply>, u: Task, last: Run)
    requires Plays(t, run, rs, u, last) && run.phase.Announcing? && last.phase.Announcing?
    ensures rs == []
  {
    if rs != [] {
      var (t1, n) := Continue(t, run, rs[0]);
      NoWayBack(t1, n.run, rs[1..], u, last);
    }
  }

  predicate AllUploaded(rs: seq<Reply>) { forall i :: 0 <= i < |rs| ==> rs[i].Uploaded? }

  lemma {:induction false} FromUploading(t: Task, run: Run, rs: seq<Reply>, u: Task, last: Run)
    requires Plays(t, run, rs, u, last) && run.phase.Uploading? && last.phase.Announcing?
    ensures AllUploaded(rs)
    decreases |rs|
  {
    if rs != [] {
      var (t1, n) := Continue(t, run, rs[0]);
      if n.run.phase.Apologising? {
        NoWayBack(t1, n.run, rs[1..], u, last);
      } else if n.run.phase.Uploading? {
        FromUploading(t1, n.run, rs[1..], u, last);
      } else {
        AnnouncingEnds(t1, n.run, rs[1..], u, last);
      }
    }
  }

  lemma FromUpload(t: Task, run: Run, rs: seq<Reply>, u: Task, last: Run)
    requires var (t1, n) := Upload(t, run); Plays(t1, n.run, rs, u, last)
    requires last.phase.Announcing?
    ensures AllUploaded(rs)
  {
    var (t1, n) := Upload(t, run);
    if n.run.phase.Uploading? { FromUploading(t1, n.run, rs, u, last); } else { AnnouncingEnds(t1, n.run, rs, u, last); }
  }

  /** What is left of the replies once the file has been dealt with: the video analysis, if there is one, and the
      uploads. */
  predicate TailOf(source: Source, rs: seq<Reply>) {
    if source.mps then rs != [] && (rs[0].Analysed? || rs[0].Raised?) && AllUploaded(rs[1..]) else AllUploaded(rs)
  }

  lemma FromAnalyse(t: Task, run: Run, rs: seq<Reply>, u: Task, last: Run)
    requires var (t1, n) := Analyse(t, run); Plays(t1, n.run, rs, u, last)
    requires last.phase.Announcing?
    ensures TailOf(t.source, rs)
  {
    if t.source.mps {
      var (t1, n) := Analyse(t, run);
      FromUpload(t1.(progress := 60), if rs[0].Raised? then n.run else n.run.(texts := n.run.texts + rs[0].texts),
                 rs[1..], u, last);
    } else {
      FromUpload(t, run, rs, u, last);
    }
  }

  lemma FromTranscribing(t: Task, run: Run, rs: seq<Reply>, u: Task, last: Run)
    requires Plays(t, run, rs, u, last) && run.phase.Transcribing? && last.phase.Announcing?
    ensures rs != [] && rs[0].Heard? && TailOf(t.source, rs[1..])
  {
    var (t1, n) := Continue(t, run, rs[0]);
    if rs[0].Raised? {
      NoWayBack(t1, n.run, rs[1..], u, last);
    } else {
      FromAnalyse(t.(progress := 50), if rs[0].speech then run.(texts := run.texts + 1) else run, rs[1..], u, last);
    }
  }

  lemma FromExtracting(t: Task, run: Run, rs: seq<Reply>, u: Task, last: Run)
    requires Plays(t, run, rs, u, last) && run.phase.Extracting? && last.phase.Announcing?
    ensures rs != [] && rs[0].Extracted?
    ensures if rs[0].found then |rs| > 1 && rs[1].Heard? && TailOf(t.source, rs[2..]) else TailOf(t.source, rs[1..])
  {
    var (t1, n) := Continue(t, run, rs[0]);
    if rs[0].Raised? {
      NoWayBack(t1, n.run, rs[1..], u, last);
    } else if rs[0].found {
      FromTranscribing(t1, n.run, rs[1..], u, last);
      assert rs[1..][1..] == rs[2..];
    } else {
      FromAnalyse(t, run, rs[1..], u, last);
    }
  }

  /** The replies behind the parser's. */
  predicate BehindParsing(source: Source, rs: seq<Reply>) {
    match source.file
    case Video =>
      rs != [] && rs[0].Extracted?
      && if rs[0].found then |rs| > 1 && rs[1].Heard? && TailOf(source, rs[2..]) else TailOf(source, rs[1..])
    case Audio => rs != [] && rs[0].Heard? && TailOf(source, rs[1..])
    case _ => TailOf(source, rs)
  }

  lemma FromParsing(t: Task, run: Run, rs: seq<Reply>, u: Task, last: Run)
    requires Plays(t, run, rs, u, last) && run.phase.Parsing? && last.phase.Announcing?
    ensures rs != [] && rs[0].Parsed? && BehindParsing(t.source, rs[1..])
  {
    var (t1, n) := Continue(t, run, rs[0]);
    if rs[0].Raised? {
      NoWayBack(t1, n.run, rs[1..], u, last);
    } else {
      match t.source.file {
        case Video => FromExtracting(t1, n.run, rs[1..], u, last);
        case Audio => FromTranscribing(t1, n.run, rs[1..], u, last);
        case _ => FromAnalyse(t.(progress := 30), run.(texts := rs[0].texts), rs[1..], u, last);
      }
    }
  }

  /** A task announced as completed: its replies came in the order of the phases that its source calls for, every text
      brought by them was uploaded once, and the task has the document ids received, in order. */
  lemma CompletedSession(t: Task, id: nat, rs: seq<Reply>, u: Task, last: Run)
    requires Session(t, id, rs, u, last) && last.phase.Announcing?
    ensures if t.source.file.NoFile? then TailOf(t.source, rs)
            else rs != [] && rs[0].Parsed? && BehindParsing(t.source, rs[1..])
    ensures Uploads(rs) == Texts(rs) && u.docs == DocIds(rs)
    ensures u.status == Completed && u.progress == 100 && u.error == None && u.tenant == t.tenant && u.source == t.source
  {
    var (t1, n) := Begin(t, id);
    BeginIs(t, id);
    PlaysInPhase(t1, n.run, rs, u, last);
    PlaysCount(t1, n.run, rs, u, last);
    assert [] + DocIds(rs) == DocIds(rs);
    if t.source.file.NoFile? {
      FromAnalyse(t.(status := Processing, progress := 5), Run(id, Parsing, 0, 0, []), rs, u, last);
    } else {
      FromParsing(t1, n.run, rs, u, last);
    }
  }

  /** A task set failed: the last reply raised, and the task has its error. */
  lemma {:induction false} FailedSession(t: Task, run: Run, rs: seq<Reply>, u: Task, last: Run)
    requires InPhase(t, run) && !run.phase.Apologising? && Plays(t, run, rs, u, last) && last.phase.Apologising?
    ensures rs != [] && rs[|rs| - 1].Raised? && u.status == Failed && u.error == Some(rs[|rs| - 1].error)
    decreases |rs|
  {
    var (t1, n) := Continue(t, run, rs[0]);
    ContinueIs(t, run, rs[0]);
    if n.run.phase.Apologising? {
      NothingMore(t1, n.run, rs[1..], u, last);
    } else {
      FailedSession(t1, n.run, rs[1..], u, last);
    }
  }

  lemma NothingMore(t: Task, run: Run, rs: seq<Reply>, u: Task, last: Run)
    requires Plays(t, run, rs, u, last) && run.phase.Apologising?
    ensures rs == [] && u == t
  {
  }
}
