/** Rewriting the model name in every configuration file, file by file, while others may read them.

    The disk records every state it has been in, so what holds of all recorded states holds wherever
    the process stops. */
module Migration {
  import opened Options
  import opened Sequences
  import opened Decimals
  import opened Texts
  import opened ModelRewrite

  datatype Path = Path(dir: seq<string>, name: string)

  type Disk = map<Path, string>

  /** What happens outside while one file is migrated; written counts say how far a failing write gets. */
  datatype Outcome =
    | Works
    | ReadFails
    | Undecodable
    | CopyFails(made: bool, written: nat)
    | WriteFails(made: bool, written: nat, cleaned: bool)
    | ReplaceFails(cleaned: bool)

  datatype Args = Args(request: Request, apply: bool, clock: string, pid: nat)

  datatype Report = Report(scanned: nat, matched: nat, rewritten: nat, unhandled: seq<Path>, backups: seq<Path>)

  const BLANK := Report(0, 0, 0, [], [])

  // ---------- names ----------

  function Backup(p: Path, a: Args): Path { Path(p.dir, p.name + (".bak-" + a.clock + "Z")) }

  function Temporary(p: Path, a: Args): Path { Path(p.dir, "." + p.name + (".tmp-" + Decimal(a.pid))) }

  function Touched(p: Path, a: Args): set<Path> { {p, Backup(p, a), Temporary(p, a)} }

  /** No target has the name of another's backup or temporary file. */
  predicate Clear(targets: seq<Path>, a: Args) {
    forall i, j :: 0 <= i < |targets| && 0 <= j < |targets| ==>
                     targets[i] != Backup(targets[j], a) && targets[i] != Temporary(targets[j], a)
  }

  /** A real run plans to rewrite the file. */
  predicate Plans(init: Disk, p: Path, a: Args, yaml: Reader) {
    a.apply && p in init && PlanRewrite(Normalise(init[p]), a.request, yaml).Rewrite?
  }

  /** The file's backup or temporary file has the name of a target. */
  predicate Clashes(targets: seq<Path>, p: Path, a: Args) { Backup(p, a) in targets || Temporary(p, a) in targets }

  /** None of the first n targets that are to be rewritten has a backup or temporary file named like a target. */
  predicate ClearUpTo(init: Disk, targets: seq<Path>, n: nat, a: Args, yaml: Reader)
    requires n <= |targets|
  {
    forall i :: 0 <= i < n && Plans(init, targets[i], a, yaml) ==> !Clashes(targets, targets[i], a)
  }

  predicate PlannedClear(init: Disk, targets: seq<Path>, a: Args, yaml: Reader) {
    ClearUpTo(init, targets, |targets|, a, yaml)
  }

  lemma ClearIsPlannedClear(init: Disk, targets: seq<Path>, a: Args, yaml: Reader)
    requires Clear(targets, a)
    ensures PlannedClear(init, targets, a, yaml)
  {
  }

  // ---------- texts ----------

  /** Universal newlines, as a text is read. */
  function Normalise(s: string): string {
    if s == "" then ""
    else if s[0] != '\r' then [s[0]] + Normalise(s[1..])
    else "\n" + Normalise(if |s| > 1 && s[1] == '\n' then s[2..] else s[1..])
  }

  datatype Fate = ReadError | Abort | Refused | Unchanged | Planned | WriteError | Rewritten(text: string)

  /** What becomes of a file, by its text before the run alone. */
  function FateOf(raw: Option<string>, o: Outcome, a: Args, yaml: Reader): Fate {
    if raw.None? || o.ReadFails? then ReadError
    else if o.Undecodable? then Abort
    else
      match PlanRewrite(Normalise(raw.value), a.request, yaml)
      case Unsupported => Refused
      case NoChange => Unchanged
      case Rewrite(_, _, text) => if !a.apply then Planned else if o.Works? then Rewritten(text) else WriteError
  }

  function Lookup(d: Disk, p: Path): Option<string> { if p in d then Some(d[p]) else None }

  function TargetFate(init: Disk, p: Path, o: Outcome, a: Args, yaml: Reader): Fate {
    FateOf(Lookup(init, p), o, a, yaml)
  }

  function Note(r: Report, p: Path, f: Fate, a: Args): Report {
    var s := r.(scanned := r.scanned + 1);
    match f
    case ReadError => s.(unhandled := s.unhandled + [p])
    case Abort => s
    case Refused => s.(unhandled := s.unhandled + [p])
    case Unchanged => s
    case Planned => s.(matched := s.matched + 1)
    case WriteError => s.(matched := s.matched + 1, unhandled := s.unhandled + [p])
    case Rewritten(_) => s.(matched := s.matched + 1, rewritten := s.rewritten + 1, backups := s.backups + [Backup(p, a)])
  }

  /** The report on the first n targets. */
  function ReportOf(init: Disk, targets: seq<Path>, os: seq<Outcome>, n: nat, a: Args, yaml: Reader): Report
    requires n <= |targets| == |os|
  {
    if n == 0 then BLANK
    else Note(ReportOf(init, targets, os, n - 1, a, yaml), targets[n - 1],
              TargetFate(init, targets[n - 1], os[n - 1], a, yaml), a)
  }

  /** A person has to look at the file: it cannot be read, or is not written in a way that can be rewritten safely, or
      its backup or its new text could not be written. */
  predicate NeedsPerson(init: Disk, p: Path, o: Outcome, a: Args, yaml: Reader) {
    || p !in init || o.ReadFails?
    || (!o.Undecodable? &&
        match PlanRewrite(Normalise(init[p]), a.request, yaml)
        case Unsupported => true
        case Rewrite(_, _, _) => a.apply && !o.Works?
        case NoChange => false)
  }

  /** The file is one that the request wants rewritten and that can be. */
  predicate Matched(init: Disk, p: Path, o: Outcome, a: Args, yaml: Reader) {
    p in init && !o.ReadFails? && !o.Undecodable? && PlanRewrite(Normalise(init[p]), a.request, yaml).Rewrite?
  }

  /** What the report of a run that is not aborted says of the n targets. */
  ghost predicate Accounts(r: Report, init: Disk, targets: seq<Path>, os: seq<Outcome>, n: nat, a: Args, yaml: Reader)
    requires n <= |targets| == |os|
  {
    && r.scanned == n
    && ListsUnhandled(r, init, targets, os, n, a, yaml) && ListsBackups(r, init, targets, os, n, a, yaml)
    && CountsMatched(r, init, targets, os, n, a, yaml)
  }

  ghost predicate CountsMatched(r: Report, init: Disk, targets: seq<Path>, os: seq<Outcome>, n: nat, a: Args, yaml: Reader)
    requires n <= |targets| == |os|
  {
    && r.matched == |Below(n, MatchedAt(init, targets, os, a, yaml))|
    && r.rewritten == |Below(n, WrittenAt(init, targets, os, a, yaml))|
  }

  /** How the file ends: rewritten, with a backup, when that was wanted, could be planned, and nothing failed, and as it
      was otherwise. */
  predicate EndsRight(now: Disk, init: Disk, p: Path, o: Outcome, a: Args, yaml: Reader) {
    if Written(init, p, o, a, yaml)
    then HasBackup(now, init, p, PlanRewrite(Normalise(init[p]), a.request, yaml).text, a)
    else Lookup(now, p) == Lookup(init, p)
  }

  ghost predicate ListsUnhandled(r: Report, init: Disk, targets: seq<Path>, os: seq<Outcome>, n: nat, a: Args, yaml: Reader)
    requires n <= |targets| == |os|
  {
    forall p :: p in r.unhandled <==>
      exists j :: 0 <= j < n && targets[j] == p && NeedsPerson(init, targets[j], os[j], a, yaml)
  }

  ghost predicate ListsBackups(r: Report, init: Disk, targets: seq<Path>, os: seq<Outcome>, n: nat, a: Args, yaml: Reader)
    requires n <= |targets| == |os|
  {
    forall b :: b in r.backups <==>
      exists j :: 0 <= j < n && Backup(targets[j], a) == b && Written(init, targets[j], os[j], a, yaml)
  }

  /** A real run rewrites the file. */
  predicate Written(init: Disk, p: Path, o: Outcome, a: Args, yaml: Reader) {
    Matched(init, p, o, a, yaml) && a.apply && o.Works?
  }

  predicate AllEndRight(now: Disk, init: Disk, targets: seq<Path>, os: seq<Outcome>, a: Args, yaml: Reader)
    requires |targets| == |os|
  {
    forall j :: 0 <= j < |targets| ==> EndsRight(now, init, targets[j], os[j], a, yaml)
  }

  /** The numbers below n with a property. */
  ghost function Below(n: nat, p: nat -> bool): set<nat> { set j: nat | j < n && p(j) }

  ghost function MatchedAt(init: Disk, targets: seq<Path>, os: seq<Outcome>, a: Args, yaml: Reader): nat -> bool
    requires |targets| == |os|
  {
    (j: nat) => j < |targets| && Matched(init, targets[j], os[j], a, yaml)
  }

  ghost function WrittenAt(init: Disk, targets: seq<Path>, os: seq<Outcome>, a: Args, yaml: Reader): nat -> bool
    requires |targets| == |os|
  {
    (j: nat) => j < |targets| && Written(init, targets[j], os[j], a, yaml)
  }

  // ---------- states of the disk ----------

  ghost predicate SameOutside(d: Disk, e: Disk, ps: set<Path>) {
    forall p :: p !in ps ==> Lookup(d, p) == Lookup(e, p)
  }

  /** In state d the target has its text from before the run, or the rewritten one and a backup of the former. */
  predicate Safe(d: Disk, init: Disk, p: Path, a: Args, yaml: Reader) {
    Lookup(d, p) == Lookup(init, p) || Replaced(d, init, p, a, yaml)
  }

  predicate Replaced(d: Disk, init: Disk, p: Path, a: Args, yaml: Reader) {
    && p in init && PlanRewrite(Normalise(init[p]), a.request, yaml).Rewrite?
    && HasBackup(d, init, p, PlanRewrite(Normalise(init[p]), a.request, yaml).text, a)
  }

  /** The file has the text, and a backup of what it had before. */
  predicate HasBackup(d: Disk, init: Disk, p: Path, text: string, a: Args) {
    p in init && Lookup(d, p) == Some(text) && Lookup(d, Backup(p, a)) == Some(init[p])
  }

  /** The state a target ends in. */
  predicate Settled(d: Disk, init: Disk, p: Path, f: Fate, a: Args) {
    if f.Rewritten? then HasBackup(d, init, p, f.text, a)
    else Lookup(d, p) == Lookup(init, p)
  }

  class FileSystem {
    var files: Disk
    /** Every state the disk has been in. */
    ghost var seen: set<Disk>

    method Write(p: Path, text: string)
      modifies this
      ensures files == old(files)[p := text] && seen == old(seen) + {files}
    {
      files := files[p := text];
      seen := seen + {files};
    }

    method Remove(p: Path)
      modifies this
      ensures files == old(files) - {p} && seen == old(seen) + {files}
    {
      files := files - {p};
      seen := seen + {files};
    }

    /** `os.replace`: one step. */
    method Replace(source: Path, target: Path)
      requires source in files
      modifies this
      ensures files == old(files)[target := old(files)[source]] - {source} && seen == old(seen) + {files}
    {
      files := files[target := files[source]] - {source};
      seen := seen + {files};
    }

    /** A write in pieces: readers may see every beginning of the text. */
    method WriteSlowly(p: Path, text: string, upTo: nat)
      requires upTo <= |text|
      modifies this
      ensures files == old(files)[p := text[..upTo]]
      ensures forall d :: d in seen ==> d in old(seen) || SameOutside(d, old(files), {p})
      ensures old(seen) <= seen && files in seen && old(files)[p := ""] in seen
    {
      Write(p, "");
      var k := 0;
      assert text[..0] == "";
      while k < upTo
        invariant 0 <= k <= upTo
        invariant files == old(files)[p := text[..k]]
        invariant forall d :: d in seen ==> d in old(seen) || SameOutside(d, old(files), {p})
        invariant old(seen) <= seen && files in seen && old(files)[p := ""] in seen
      {
        k := k + 1;
        Write(p, text[..k]);
      }
    }

    /** `shutil.copy2`; true when it succeeds. */
    method Copy(source: Path, target: Path, o: Outcome) returns (ok: bool)
      requires source in files && source != target
      modifies this
      ensures ok <==> !o.CopyFails?
      ensures ok ==> files == old(files)[target := old(files)[source]] && files in seen && old(files)[target := ""] in seen
      ensures SameOutside(files, old(files), {target})
      ensures forall d :: d in seen ==> d in old(seen) || SameOutside(d, old(files), {target})
      ensures old(seen) <= seen && (files == old(files) || files in seen)
    {
      var text := files[source];
      ok := !o.CopyFails?;
      assert text[..|text|] == text;
      if ok {
        WriteSlowly(target, text, |text|);
      } else if o.made {
        WriteSlowly(target, text, if o.written <= |text| then o.written else |text|);
      }
    }

    /** `_atomic_write_text`; true when it succeeds. */
    method WriteAtomically(p: Path, text: string, temporary: Path, o: Outcome) returns (ok: bool)
      requires p != temporary
      modifies this
      ensures ok <==> !o.WriteFails? && !o.ReplaceFails?
      ensures ok ==> files == old(files)[p := text] - {temporary}
      ensures ok ==> old(files)[temporary := ""] in seen && old(files)[temporary := text] in seen
      ensures !ok ==> SameOutside(files, old(files), {temporary})
      ensures forall d :: d in seen ==>
                            || d in old(seen)
                            || SameOutside(d, old(files), {temporary})
                            || d == old(files)[p := text] - {temporary}
      ensures old(seen) <= seen && (files == old(files) || files in seen)
    {
      assert text[..|text|] == text;
      if o.WriteFails? {
        if o.made {
          WriteSlowly(temporary, text, if o.written <= |text| then o.written else |text|);
          if o.cleaned {
            Remove(temporary);
          }
        }
        return false;
      }
      WriteSlowly(temporary, text, |text|);
      if o.ReplaceFails? {
        if o.cleaned {
          Remove(temporary);
        }
        return false;
      }
      Replace(temporary, p);
      assert files == old(files)[p := text] - {temporary};
      ok := true;
    }

    /** The copy to the backup and the replacement of one file; true when both succeed. */
    method RewriteFile(p: Path, text: string, o: Outcome, a: Args) returns (written: bool)
      requires p in files
      modifies this
      ensures written <==> !o.CopyFails? && !o.WriteFails? && !o.ReplaceFails?
      ensures if written then HasBackup(files, old(files), p, text, a) && PassesThrough(seen, old(files), p, text, a)
              else Lookup(files, p) == Lookup(old(files), p)
      ensures SameOutside(files, old(files), Touched(p, a))
      ensures forall d :: d in seen ==>
                            || d in old(seen)
                            || (SameOutside(d, old(files), Touched(p, a))
                                && (Lookup(d, p) == Lookup(old(files), p) || HasBackup(d, old(files), p, text, a)))
      ensures old(seen) <= seen && (files == old(files) || files in seen)
    {
      NamesApart(p, p, a);
      var copied := Copy(p, Backup(p, a), o);
      written := false;
      if copied {
        written := WriteAtomically(p, text, Temporary(p, a), o);
      }
    }

    /** A planned rewrite is counted, and carried out in a real run. */
    method CarryOut(p: Path, text: string, o: Outcome, a: Args, report: Report) returns (next: Report)
      requires p in files && !o.ReadFails? && !o.Undecodable?
      modifies this
      ensures var r := report.(matched := report.matched + 1);
              next == if !a.apply then r
                      else if o.Works? then r.(rewritten := r.rewritten + 1, backups := r.backups + [Backup(p, a)])
                      else r.(unhandled := r.unhandled + [p])
      ensures a.apply && o.Works? ==>
                HasBackup(files, old(files), p, text, a) && PassesThrough(seen, old(files), p, text, a)
      ensures !(a.apply && o.Works?) ==> Lookup(files, p) == Lookup(old(files), p)
      ensures !a.apply ==> files == old(files) && seen == old(seen)
      ensures SameOutside(files, old(files), Touched(p, a))
      ensures forall d :: d in seen ==>
                            || d in old(seen)
                            || (SameOutside(d, old(files), Touched(p, a))
                                && (Lookup(d, p) == Lookup(old(files), p) || HasBackup(d, old(files), p, text, a)))
      ensures old(seen) <= seen && (files == old(files) || files in seen)
    {
      next := report.(matched := report.matched + 1);
      if !a.apply {
        return;
      }
      var written := RewriteFile(p, text, o, a);
      if written {
        next := next.(rewritten := next.rewritten + 1, backups := next.backups + [Backup(p, a)]);
      } else {
        next := next.(unhandled := next.unhandled + [p]);
      }
    }

    /** The migration of one target. */
    method MigrateOne(p: Path, o: Outcome, a: Args, yaml: Reader, report: Report) returns (next: Report, ok: bool)
      modifies this
      ensures var f := TargetFate(old(files), p, o, a, yaml);
              && (ok <==> f != Abort)
              && next == Note(report, p, f, a)
              && Settled(files, old(files), p, f, a)
              && (f.Rewritten? ==> PassesThrough(seen, old(files), p, f.text, a))
      ensures !Plans(old(files), p, a, yaml) ==> files == old(files) && seen == old(seen)
      ensures SameOutside(files, old(files), Touched(p, a))
      ensures forall d :: d in seen ==>
                            || d in old(seen)
                            || (SameOutside(d, old(files), Touched(p, a)) && Safe(d, old(files), p, a, yaml))
      ensures old(seen) <= seen && (files == old(files) || files in seen)
    {
      next, ok := report.(scanned := report.scanned + 1), true;
      if p !in files || o.ReadFails? {
        next := next.(unhandled := next.unhandled + [p]);
        return;
      }
      if o.Undecodable? {
        ok := false;
        return;
      }
      var plan := PlanRewrite(Normalise(files[p]), a.request, yaml);
      if plan.Unsupported? {
        next := next.(unhandled := next.unhandled + [p]);
        return;
      }
      if plan.NoChange? {
        return;
      }
      next := CarryOut(p, plan.text, o, a, next);
    }

    /** `migrate`, on the list of targets. The run ends early when a file cannot be decoded. Whatever fails, it
        goes as it should when no target to be rewritten clashes; and when nothing fails, every state it passes
        through is safe only then. */
    method Migrate(targets: seq<Path>, os: seq<Outcome>, a: Args, yaml: Reader)
      returns (report: Report, ok: bool, n: nat)
      requires |targets| == |os| && Distinct(targets)
      modifies this
      ensures n <= |targets| && (ok ==> n == |targets|) && report.scanned == n
      ensures SameOutside(files, old(files), AllTouched(targets, a))
      ensures !a.apply ==> files == old(files) && seen == old(seen)
      ensures PlannedClear(old(files), targets, a, yaml) ==>
                RunIs(report, ok, n, files, old(files), targets, os, a, yaml)
                && Watched(seen, old(seen), old(files), targets, a, yaml)
      ensures PlannedClear(old(files), targets, a, yaml) && ok ==>
                Accounts(report, old(files), targets, os, |targets|, a, yaml)
                && AllEndRight(files, old(files), targets, os, a, yaml)
      ensures AllWork(os) && old(seen) == {} ==>
                (Watched(seen, {}, old(files), targets, a, yaml) <==> PlannedClear(old(files), targets, a, yaml))
    {
      report, ok, n := BLANK, true, 0;
      while n < |targets|
        invariant 0 <= n <= |targets| && ok && report.scanned == n
        invariant SameOutside(files, old(files), AllTouched(targets, a))
        invariant !a.apply ==> files == old(files) && seen == old(seen)
        invariant Course(report, true, n, files, seen, old(seen), old(files), targets, os, a, yaml)
      {
        ghost var before, seenBefore, reported := files, seen, report;
        var p, o := targets[n], os[n];
        report, ok := MigrateOne(p, o, a, yaml, report);
        TouchedOutside(before, files, targets, n, a);
        CourseStep(reported, report, ok, n, before, files, seenBefore, seen, old(seen), old(files), targets, os, a, yaml);
        n := n + 1;
        if !ok {
          CourseEnds(report, ok, n, files, seen, old(seen), old(files), targets, os, a, yaml);
          return;
        }
      }
      CourseEnds(report, ok, n, files, seen, old(seen), old(files), targets, os, a, yaml);
    }
  }

  /** Where a run is after n targets: it goes as it should as long as no target to be rewritten has clashed, and
      has otherwise, if nothing failed, passed through a state that is not safe. */
  ghost predicate Course(report: Report, ok: bool, n: nat, now: Disk, seen: set<Disk>, start: set<Disk>, init: Disk,
                         targets: seq<Path>, os: seq<Outcome>, a: Args, yaml: Reader)
    requires n <= |targets| == |os|
  {
    && (ClearUpTo(init, targets, n, a, yaml) ==>
          RunIs(report, ok, n, now, init, targets, os, a, yaml) && Watched(seen, start, init, targets, a, yaml))
    && (AllWork(os) && !ClearUpTo(init, targets, n, a, yaml) ==>
          exists d :: d in seen && !AllSafe(d, init, targets, a, yaml))
  }

  lemma CourseEnds(report: Report, ok: bool, n: nat, now: Disk, seen: set<Disk>, start: set<Disk>, init: Disk,
                   targets: seq<Path>, os: seq<Outcome>, a: Args, yaml: Reader)
    requires n <= |targets| == |os| && (ok ==> n == |targets|)
    requires Course(report, ok, n, now, seen, start, init, targets, os, a, yaml)
    ensures PlannedClear(init, targets, a, yaml) ==>
              RunIs(report, ok, n, now, init, targets, os, a, yaml) && Watched(seen, start, init, targets, a, yaml)
    ensures PlannedClear(init, targets, a, yaml) && ok ==>
              Accounts(report, init, targets, os, |targets|, a, yaml) && AllEndRight(now, init, targets, os, a, yaml)
    ensures ok && AllWork(os) && start == {} ==>
              (Watched(seen, {}, init, targets, a, yaml) <==> PlannedClear(init, targets, a, yaml))
  {
    if PlannedClear(init, targets, a, yaml) && ok {
      RunAccounts(init, targets, os, n, a, yaml);
      RunEndsRight(report, n, now, init, targets, os, a, yaml);
    }
  }

  lemma CourseStep(reported: Report, report: Report, ok: bool, n: nat, before: Disk, now: Disk, seenBefore: set<Disk>,
                   seen: set<Disk>, start: set<Disk>, init: Disk, targets: seq<Path>, os: seq<Outcome>, a: Args,
                   yaml: Reader)
    requires n < |targets| == |os| && Distinct(targets)
    requires Course(reported, true, n, before, seenBefore, start, init, targets, os, a, yaml) && seenBefore <= seen
    requires SameOutside(now, before, Touched(targets[n], a))
    requires !Plans(before, targets[n], a, yaml) ==> now == before && seen == seenBefore
    requires var f := TargetFate(before, targets[n], os[n], a, yaml);
             && (ok <==> f != Abort) && report == Note(reported, targets[n], f, a)
             && Settled(now, before, targets[n], f, a)
             && (f.Rewritten? ==> PassesThrough(seen, before, targets[n], f.text, a))
    requires forall d :: d in seen ==>
                           || d in seenBefore
                           || (SameOutside(d, before, Touched(targets[n], a)) && Safe(d, before, targets[n], a, yaml))
    ensures Course(report, ok, n + 1, now, seen, start, init, targets, os, a, yaml)
  {
    if ClearUpTo(init, targets, n + 1, a, yaml) {
      ClearStep(reported, report, ok, n, init, before, now, targets, os, a, yaml);
      StillWatched(seen, seenBefore, start, init, before, targets, os, n, a, yaml);
    } else if AllWork(os) && ClearUpTo(init, targets, n, a, yaml) {
      ClashIsSeen(seen, init, before, targets, os, n, a, yaml);
    }
  }

  predicate AllWork(os: seq<Outcome>) { forall i :: 0 <= i < |os| ==> os[i].Works? }

  /** The states on the way of a successful rewrite that matter to files named like its backup or its temporary
      file: those files begin empty and become full. */
  ghost predicate PassesThrough(seen: set<Disk>, init: Disk, p: Path, text: string, a: Args) {
    p in init &&
    var copied := init[Backup(p, a) := init[p]];
    && init[Backup(p, a) := ""] in seen && copied in seen
    && copied[Temporary(p, a) := ""] in seen && copied[Temporary(p, a) := text] in seen
  }

  /** The report and the disk after the first n targets; a run that is not through has met a file that cannot be
      decoded. */
  ghost predicate RunIs(report: Report, ok: bool, n: nat, now: Disk, init: Disk, targets: seq<Path>, os: seq<Outcome>,
                        a: Args, yaml: Reader)
    requires n <= |targets| == |os|
  {
    && report == ReportOf(init, targets, os, n, a, yaml)
    && (!ok ==> n > 0 && TargetFate(init, targets[n - 1], os[n - 1], a, yaml) == Abort)
    && NoneAborts(init, targets, os, if ok then n else n - 1, a, yaml)
    && MidRun(now, init, targets, os, n, a, yaml)
  }

  predicate NoneAborts(init: Disk, targets: seq<Path>, os: seq<Outcome>, n: nat, a: Args, yaml: Reader)
    requires n <= |targets| == |os|
  {
    forall j :: 0 <= j < n ==> TargetFate(init, targets[j], os[j], a, yaml) != Abort
  }

  /** Every state the disk has been in during the run is safe for every target. */
  ghost predicate Watched(seen: set<Disk>, before: set<Disk>, init: Disk, targets: seq<Path>, a: Args, yaml: Reader) {
    forall d :: d in seen ==> d in before || AllSafe(d, init, targets, a, yaml)
  }

  lemma StillWatched(seen: set<Disk>, seenBefore: set<Disk>, start: set<Disk>, init: Disk, before: Disk,
                     targets: seq<Path>, os: seq<Outcome>, n: nat, a: Args, yaml: Reader)
    requires n < |targets| == |os| && Distinct(targets) && ClearUpTo(init, targets, n + 1, a, yaml)
    requires MidRun(before, init, targets, os, n, a, yaml) && Watched(seenBefore, start, init, targets, a, yaml)
    requires !Plans(before, targets[n], a, yaml) ==> seen == seenBefore
    requires forall d :: d in seen ==>
                           || d in seenBefore
                           || (SameOutside(d, before, Touched(targets[n], a)) && Safe(d, before, targets[n], a, yaml))
    ensures Watched(seen, start, init, targets, a, yaml)
  {
    forall d | d in seen && d !in seenBefore ensures AllSafe(d, init, targets, a, yaml) {
      SafeStep(init, before, d, targets, os, n, a, yaml);
    }
  }

  lemma ClearStep(before: Report, report: Report, ok: bool, n: nat, init: Disk, was: Disk, now: Disk,
                  targets: seq<Path>, os: seq<Outcome>, a: Args, yaml: Reader)
    requires n < |targets| == |os| && Distinct(targets) && ClearUpTo(init, targets, n + 1, a, yaml)
    requires !Plans(was, targets[n], a, yaml) ==> now == was
    requires RunIs(before, true, n, was, init, targets, os, a, yaml)
    requires SameOutside(now, was, Touched(targets[n], a))
    requires var f := TargetFate(was, targets[n], os[n], a, yaml);
             (ok <==> f != Abort) && report == Note(before, targets[n], f, a) && Settled(now, was, targets[n], f, a)
    ensures RunIs(report, ok, n + 1, now, init, targets, os, a, yaml)
  {
    OneStep(init, was, now, targets, os, n, a, yaml);
    RunGrows(before, report, ok, n, now, init, targets, os, a, yaml);
  }

  lemma RunGrows(before: Report, report: Report, ok: bool, n: nat, now: Disk, init: Disk, targets: seq<Path>,
                 os: seq<Outcome>, a: Args, yaml: Reader)
    requires n < |targets| == |os| && before == ReportOf(init, targets, os, n, a, yaml)
    requires NoneAborts(init, targets, os, n, a, yaml)
    requires report == Note(before, targets[n], TargetFate(init, targets[n], os[n], a, yaml), a)
    requires ok <==> TargetFate(init, targets[n], os[n], a, yaml) != Abort
    requires MidRun(now, init, targets, os, n + 1, a, yaml)
    ensures RunIs(report, ok, n + 1, now, init, targets, os, a, yaml)
  {
    if ok {
      NextDoesNotAbort(init, targets, os, n, a, yaml);
    }
  }

  lemma NextDoesNotAbort(init: Disk, targets: seq<Path>, os: seq<Outcome>, n: nat, a: Args, yaml: Reader)
    requires n < |targets| == |os| && NoneAborts(init, targets, os, n, a, yaml)
    requires TargetFate(init, targets[n], os[n], a, yaml) != Abort
    ensures NoneAborts(init, targets, os, n + 1, a, yaml)
  {
  }

  lemma TouchedOutside(before: Disk, now: Disk, targets: seq<Path>, n: nat, a: Args)
    requires n < |targets| && SameOutside(now, before, Touched(targets[n], a))
    ensures SameOutside(now, before, AllTouched(targets, a))
  {
    forall p | p !in AllTouched(targets, a) ensures Lookup(now, p) == Lookup(before, p) {
      assert p !in Touched(targets[n], a);
    }
  }

  /** Up to a target the run has gone as it should, so it is met with its text from before the run. */
  lemma NextIsFirst(init: Disk, before: Disk, targets: seq<Path>, os: seq<Outcome>, n: nat, a: Args, yaml: Reader)
    requires n < |targets| == |os| && MidRun(before, init, targets, os, n, a, yaml)
    ensures Lookup(before, targets[n]) == Lookup(init, targets[n])
    ensures Plans(before, targets[n], a, yaml) <==> Plans(init, targets[n], a, yaml)
    ensures TargetFate(before, targets[n], os[n], a, yaml) == TargetFate(init, targets[n], os[n], a, yaml)
  {
  }

  /** The first target to be rewritten that clashes spoils the other one on its way. */
  lemma ClashIsSeen(seen: set<Disk>, init: Disk, before: Disk, targets: seq<Path>, os: seq<Outcome>, n: nat, a: Args,
                    yaml: Reader)
    requires n < |targets| == |os| && MidRun(before, init, targets, os, n, a, yaml) && os[n].Works?
    requires Plans(init, targets[n], a, yaml) && Clashes(targets, targets[n], a)
    requires var f := TargetFate(before, targets[n], os[n], a, yaml);
             f.Rewritten? ==> PassesThrough(seen, before, targets[n], f.text, a)
    ensures exists d :: d in seen && !AllSafe(d, init, targets, a, yaml)
  {
    var p := targets[n];
    NextIsFirst(init, before, targets, os, n, a, yaml);
    var text := PlanRewrite(Normalise(init[p]), a.request, yaml).text;
    var copied := before[Backup(p, a) := before[p]];
    PlanNotEmpty(init[p], a, yaml);
    if Backup(p, a) in targets {
      var d := SpoiltBy(before, init, Backup(p, a), before[p], a, yaml);
      NotAllSafe(d, init, targets, Backup(p, a), a, yaml);
    } else {
      var d := SpoiltBy(copied, init, Temporary(p, a), text, a, yaml);
      NotAllSafe(d, init, targets, Temporary(p, a), a, yaml);
    }
  }

  lemma NotAllSafe(d: Disk, init: Disk, targets: seq<Path>, q: Path, a: Args, yaml: Reader)
    requires q in targets && !Safe(d, init, q, a, yaml)
    ensures !AllSafe(d, init, targets, a, yaml)
  {
    var j :| 0 <= j < |targets| && targets[j] == q;
  }

  /** A file that is first emptied and then filled with something is not safe both times. */
  lemma SpoiltBy(before: Disk, init: Disk, q: Path, text: string, a: Args, yaml: Reader) returns (d: Disk)
    requires text != ""
    ensures d == before[q := ""] || d == before[q := text]
    ensures !Safe(d, init, q, a, yaml)
  {
    d := if Lookup(init, q) == Some("") then before[q := text] else before[q := ""];
    if q in init && PlanRewrite(Normalise(init[q]), a.request, yaml).Rewrite? {
      PlanNotEmpty(init[q], a, yaml);
    }
  }

  /** A text that is to be rewritten is not empty, nor is what it becomes. */
  lemma PlanNotEmpty(raw: string, a: Args, yaml: Reader)
    requires PlanRewrite(Normalise(raw), a.request, yaml).Rewrite?
    ensures raw != "" && PlanRewrite(Normalise(raw), a.request, yaml).text != ""
  {
    var t := Normalise(raw);
    RewriteChangesValueOnly(t, a.request, yaml);
    var p := PlanRewrite(t, a.request, yaml);
    var m, q :| OnlyValueChanged(t, p.text, p.oldValue, a.request.to, m, q);
    PrefixMoves(t, t, m.start, m.value);
    assert |t[..m.value]| > 0;
  }

  /** The first n targets are settled, the others and all files that belong to no target are as before. */
  ghost predicate MidRun(now: Disk, init: Disk, targets: seq<Path>, os: seq<Outcome>, n: nat, a: Args, yaml: Reader)
    requires n <= |targets| == |os|
  {
    && (forall j :: 0 <= j < n ==> Settled(now, init, targets[j], TargetFate(init, targets[j], os[j], a, yaml), a))
    && (forall j :: n <= j < |targets| ==> Lookup(now, targets[j]) == Lookup(init, targets[j]))
    && SameOutside(now, init, AllTouched(targets, a))
  }

  predicate AllSafe(d: Disk, init: Disk, targets: seq<Path>, a: Args, yaml: Reader) {
    forall j :: 0 <= j < |targets| ==> Safe(d, init, targets[j], a, yaml)
  }

  function AllTouched(targets: seq<Path>, a: Args): set<Path> {
    set j, p | 0 <= j < |targets| && p in Touched(targets[j], a) :: p
  }

  // ---------- the steps do not disturb each other ----------

  lemma SuffixInjective(a: string, b: string, s: string)
    requires a + s == b + s
    ensures a == b
  {
    assert |a| == |b|;
    assert (a + s)[..|a|] == a && (b + s)[..|b|] == b;
  }

  /** A file, its backup and its temporary file are three files, and backups are never temporary files. */
  lemma NamesApart(p: Path, q: Path, a: Args)
    ensures Backup(p, a) != p && Temporary(p, a) != p && Backup(p, a) != Temporary(q, a)
    ensures p != q ==> Backup(p, a) != Backup(q, a)
  {
    var b, t := Backup(p, a).name, Temporary(q, a).name;
    assert b[|b| - 1] == 'Z' && t[|t| - 1] == Decimal(a.pid)[|Decimal(a.pid)| - 1];
    assert |b| > |p.name| && |Temporary(p, a).name| > |p.name|;
    if Backup(p, a) == Backup(q, a) {
      SuffixInjective(p.name, q.name, ".bak-" + a.clock + "Z");
    }
  }

  /** What the migration of a target touches that does not clash belongs to no other target, and to the backup of
      another target at most if that one clashes. */
  lemma Apart(targets: seq<Path>, a: Args, i: nat, j: nat)
    requires Distinct(targets) && i < |targets| && j < |targets| && i != j && !Clashes(targets, targets[i], a)
    ensures targets[j] !in Touched(targets[i], a)
    ensures !Clashes(targets, targets[j], a) ==> Backup(targets[j], a) !in Touched(targets[i], a)
  {
    NamesApart(targets[i], targets[j], a);
    NamesApart(targets[j], targets[i], a);
  }

  /** What is on the disk for another target, and for its backup if that one is to be rewritten too, stays. */
  lemma StepLeaves(init: Disk, before: Disk, after: Disk, targets: seq<Path>, n: nat, j: nat, a: Args, yaml: Reader)
    requires n < |targets| && j < |targets| && j != n && Distinct(targets) && ClearUpTo(init, targets, n + 1, a, yaml)
    requires SameOutside(after, before, Touched(targets[n], a))
    requires !Plans(init, targets[n], a, yaml) ==> after == before
    ensures Lookup(after, targets[j]) == Lookup(before, targets[j])
    ensures j < n && Plans(init, targets[j], a, yaml) ==>
              Lookup(after, Backup(targets[j], a)) == Lookup(before, Backup(targets[j], a))
  {
    if Plans(init, targets[n], a, yaml) {
      Apart(targets, a, n, j);
    }
  }

  lemma OneStep(init: Disk, before: Disk, after: Disk, targets: seq<Path>, os: seq<Outcome>, n: nat, a: Args, yaml: Reader)
    requires n < |targets| == |os| && Distinct(targets) && ClearUpTo(init, targets, n + 1, a, yaml)
    requires MidRun(before, init, targets, os, n, a, yaml)
    requires SameOutside(after, before, Touched(targets[n], a))
    requires !Plans(before, targets[n], a, yaml) ==> after == before
    requires Settled(after, before, targets[n], TargetFate(before, targets[n], os[n], a, yaml), a)
    ensures TargetFate(before, targets[n], os[n], a, yaml) == TargetFate(init, targets[n], os[n], a, yaml)
    ensures MidRun(after, init, targets, os, n + 1, a, yaml)
  {
    NextIsFirst(init, before, targets, os, n, a, yaml);
    forall j | 0 <= j < n
      ensures Settled(after, init, targets[j], TargetFate(init, targets[j], os[j], a, yaml), a)
    {
      StaysSettled(init, before, after, targets, os, n, j, a, yaml);
    }
    OthersStay(init, before, after, targets, n, a, yaml);
  }

  lemma OthersStay(init: Disk, before: Disk, after: Disk, targets: seq<Path>, n: nat, a: Args, yaml: Reader)
    requires n < |targets| && Distinct(targets) && ClearUpTo(init, targets, n + 1, a, yaml)
    requires forall j :: n <= j < |targets| ==> Lookup(before, targets[j]) == Lookup(init, targets[j])
    requires SameOutside(before, init, AllTouched(targets, a)) && SameOutside(after, before, Touched(targets[n], a))
    requires !Plans(init, targets[n], a, yaml) ==> after == before
    ensures forall j :: n < j < |targets| ==> Lookup(after, targets[j]) == Lookup(init, targets[j])
    ensures SameOutside(after, init, AllTouched(targets, a))
  {
    forall j | n < j < |targets| ensures Lookup(after, targets[j]) == Lookup(init, targets[j]) {
      StepLeaves(init, before, after, targets, n, j, a, yaml);
    }
    forall p | p !in AllTouched(targets, a) ensures Lookup(after, p) == Lookup(init, p) {
      assert p !in Touched(targets[n], a);
    }
  }

  lemma StaysSettled(init: Disk, before: Disk, after: Disk, targets: seq<Path>, os: seq<Outcome>, n: nat, j: nat, a: Args,
                     yaml: Reader)
    requires j < n < |targets| == |os| && Distinct(targets) && ClearUpTo(init, targets, n + 1, a, yaml)
    requires Settled(before, init, targets[j], TargetFate(init, targets[j], os[j], a, yaml), a)
    requires SameOutside(after, before, Touched(targets[n], a))
    requires !Plans(init, targets[n], a, yaml) ==> after == before
    ensures Settled(after, init, targets[j], TargetFate(init, targets[j], os[j], a, yaml), a)
  {
    StepLeaves(init, before, after, targets, n, j, a, yaml);
    RewrittenIsPlanned(init, targets[j], os[j], a, yaml);
  }

  lemma RewrittenIsPlanned(init: Disk, p: Path, o: Outcome, a: Args, yaml: Reader)
    ensures TargetFate(init, p, o, a, yaml).Rewritten? ==> Plans(init, p, a, yaml)
  {
  }

  lemma SafeStep(init: Disk, before: Disk, d: Disk, targets: seq<Path>, os: seq<Outcome>, n: nat, a: Args, yaml: Reader)
    requires n < |targets| == |os| && Distinct(targets) && ClearUpTo(init, targets, n + 1, a, yaml)
    requires MidRun(before, init, targets, os, n, a, yaml) && Plans(before, targets[n], a, yaml)
    requires SameOutside(d, before, Touched(targets[n], a)) && Safe(d, before, targets[n], a, yaml)
    ensures AllSafe(d, init, targets, a, yaml)
  {
    NextIsFirst(init, before, targets, os, n, a, yaml);
    forall j | 0 <= j < |targets| && j != n ensures Safe(d, init, targets[j], a, yaml) {
      StepLeaves(init, before, d, targets, n, j, a, yaml);
      if j < n { RewrittenIsPlanned(init, targets[j], os[j], a, yaml); }
    }
  }

  // ---------- the list of targets ----------

  predicate KbConfig(p: Path) { p.name == "config.yaml" && p.dir != [] && p.dir[|p.dir| - 1] == ".openkb" }

  /** The configurations among the files found under the root, then the extra files that exist and are new. */
  method ListTargets(found: seq<Path>, extras: seq<Path>, disk: Disk) returns (targets: seq<Path>)
    ensures Distinct(found) ==> Distinct(targets)
    ensures forall p :: p in targets <==> (p in found && KbConfig(p)) || (p in extras && p in disk)
  {
    targets := [];
    for i := 0 to |found|
      invariant Distinct(found) ==> Distinct(targets)
      invariant forall p :: p in targets <==> p in found[..i] && KbConfig(p)
    {
      if KbConfig(found[i]) {
        assert Distinct(found) ==> found[i] !in found[..i];
        targets := targets + [found[i]];
      }
    }
    for i := 0 to |extras|
      invariant Distinct(found) ==> Distinct(targets)
      invariant forall p :: p in targets <==> (p in found && KbConfig(p)) || (p in extras[..i] && p in disk)
    {
      if extras[i] in disk && extras[i] !in targets {
        targets := targets + [extras[i]];
      }
    }
  }

  /** Targets with the two usual names are never backups or temporary files of one another. */
  lemma UsualNamesClear(targets: seq<Path>, a: Args)
    requires forall p :: p in targets ==> p.name == "config.yaml" || p.name == "global.yaml"
    ensures Clear(targets, a)
  {
    forall i, j | 0 <= i < |targets| && 0 <= j < |targets|
      ensures targets[i] != Backup(targets[j], a) && targets[i] != Temporary(targets[j], a)
    {
      assert targets[i] in targets && targets[j] in targets;
      assert Temporary(targets[j], a).name[0] == '.';
      assert |Backup(targets[j], a).name| > 11;
    }
  }

  // ---------- runs that clash ----------

  /** A run on a file that is to be rewritten and on one with the name of its backup or its temporary file passes
      through a state in which one of them has neither its old text nor its new one with a backup. */
  method ClashingRun(fs: FileSystem, p: Path, q: Path, a: Args, yaml: Reader)
    requires fs.seen == {} && Plans(fs.files, p, a, yaml) && (q == Backup(p, a) || q == Temporary(p, a))
    modifies fs
    ensures exists d :: d in fs.seen && !AllSafe(d, old(fs.files), [p, q], a, yaml)
  {
    NamesApart(p, p, a);
    ghost var targets := [p, q];
    assert targets[0] == p && targets[1] == q && q in targets;
    assert Clashes(targets, targets[0], a);
    var _, _, _ := fs.Migrate([p, q], [Works, Works], a, yaml);
  }

  /** What a reader makes of two texts. */
  function TwoTexts(t: string): Yaml {
    if t == "model: a" then Model("a") else if t == "model: b" then Model("b") else ParseError
  }

  lemma ExampleLine(t: string, m: Match)
    requires t == "model: a" && m == Match(0, 7, "", 8, 8)
    ensures IsModelLine(t, "a", m)
  {
    assert t[0..5] == "model" && t[5..6] == ":" && t[7..8] == Quoted("", "a");
    assert Spaces(t, 0, 0) && At(t, 0, "model") && Spaces(t, 5, 5) && At(t, 5, ":") && Spaces(t, 6, 7);
    assert Spaces(t, 8, 8);
  }

  lemma ExampleFound(t: string, m: Match)
    requires t == "model: a" && m == Match(0, 7, "", 8, 8)
    ensures FindAll(t, "a", 0) == [m]
  {
    ExampleLine(t, m);
    assert OnlyLine(t, "a", 0);
    OneMatchIff(t, "a");
    SameMatch(t, "a", m);
  }

  lemma ExamplePlanned(t: string, r: Request)
    requires t == "model: a" && r == Request(["a"], "b", false)
    ensures PlanRewrite(t, r, TwoTexts).Rewrite?
  {
    var m := Match(0, 7, "", 8, 8);
    assert Strip("a") == "a" && Strip(["a"][0]) in FromSet(["a"]);
    ExampleFound(t, m);
    assert Candidate(t, m, "", "b") == "model: b";
    RewriteIff(t, r, TwoTexts);
  }

  /** There are such files: one that holds `model: a`, and a request for `b`. */
  lemma SomethingIsPlanned(p: Path, clock: string, pid: nat)
    ensures Plans(map[p := "model: a"], p, Args(Request(["a"], "b", false), true, clock, pid), TwoTexts)
  {
    NormalisedHasNoReturns("model: a");
    ExamplePlanned("model: a", Request(["a"], "b", false));
  }

  // ---------- reports ----------

  /** How many of the first n targets have each fate. */
  datatype Tally = Tally(rewritten: nat, failed: nat, unread: nat, refused: nat, planned: nat, idle: nat)

  function Count(init: Disk, targets: seq<Path>, os: seq<Outcome>, n: nat, a: Args, yaml: Reader): Tally
    requires n <= |targets| == |os|
  {
    if n == 0 then Tally(0, 0, 0, 0, 0, 0)
    else Counted(Count(init, targets, os, n - 1, a, yaml), TargetFate(init, targets[n - 1], os[n - 1], a, yaml))
  }

  function Counted(t: Tally, f: Fate): Tally {
    match f
    case Rewritten(_) => t.(rewritten := t.rewritten + 1)
    case WriteError => t.(failed := t.failed + 1)
    case ReadError => t.(unread := t.unread + 1)
    case Refused => t.(refused := t.refused + 1)
    case Planned => t.(planned := t.planned + 1)
    case Unchanged => t.(idle := t.idle + 1)
    case Abort => t.(idle := t.idle + 1)
  }

  /** Every scanned file is counted once; a real run's matches are rewrites and write failures, each rewrite
      with its backup; every file that needs a person is listed. */
  lemma {:induction false} ReportAddsUp(init: Disk, targets: seq<Path>, os: seq<Outcome>, n: nat, a: Args, yaml: Reader)
    requires n <= |targets| == |os|
    ensures var r := ReportOf(init, targets, os, n, a, yaml);
            var t := Count(init, targets, os, n, a, yaml);
            && r.scanned == n && r.scanned == r.matched + t.unread + t.refused + t.idle
            && r.matched == t.rewritten + t.failed + t.planned
            && (a.apply ==> t.planned == 0) && (!a.apply ==> t.rewritten == t.failed == 0)
            && |r.backups| == r.rewritten == t.rewritten
            && |r.unhandled| == t.failed + t.unread + t.refused
  {
    if n > 0 {
      ReportAddsUp(init, targets, os, n - 1, a, yaml);
      var f := TargetFate(init, targets[n - 1], os[n - 1], a, yaml);
      NoteCounts(ReportOf(init, targets, os, n - 1, a, yaml), targets[n - 1], f, a);
      FateFits(init, targets[n - 1], os[n - 1], a, yaml);
    }
  }

  lemma FateFits(init: Disk, p: Path, o: Outcome, a: Args, yaml: Reader)
    ensures var f := TargetFate(init, p, o, a, yaml);
            (a.apply ==> f != Planned) && (!a.apply ==> !f.Rewritten? && f != WriteError)
  {
  }

  lemma NoteCounts(r: Report, p: Path, f: Fate, a: Args)
    ensures var s := Note(r, p, f, a);
            && s.scanned == r.scanned + 1
            && s.matched == r.matched + (if f == Planned || f == WriteError || f.Rewritten? then 1 else 0)
            && s.rewritten == r.rewritten + (if f.Rewritten? then 1 else 0)
            && |s.backups| == |r.backups| + (if f.Rewritten? then 1 else 0)
            && |s.unhandled| == |r.unhandled| + (if f == ReadError || f == Refused || f == WriteError then 1 else 0)
  {
  }

  lemma NotedBackups(r: Report, p: Path, f: Fate, a: Args, b: Path)
    ensures b in Note(r, p, f, a).backups <==> b in r.backups || (f.Rewritten? && b == Backup(p, a))
  {
  }

  /** The backups listed are those of the rewritten targets. */
  lemma {:induction false} BackupsListed(init: Disk, targets: seq<Path>, os: seq<Outcome>, n: nat, a: Args, yaml: Reader, b: Path)
    requires n <= |targets| == |os|
    ensures b in ReportOf(init, targets, os, n, a, yaml).backups <==>
            exists j :: 0 <= j < n && TargetFate(init, targets[j], os[j], a, yaml).Rewritten? && b == Backup(targets[j], a)
  {
    if n > 0 {
      BackupsListed(init, targets, os, n - 1, a, yaml, b);
      NotedBackups(ReportOf(init, targets, os, n - 1, a, yaml), targets[n - 1],
                   TargetFate(init, targets[n - 1], os[n - 1], a, yaml), a, b);
    }
  }

  lemma OneMore(n: nat, p: nat -> bool)
    ensures |Below(n + 1, p)| == |Below(n, p)| + if p(n) then 1 else 0
  {
    assert Below(n + 1, p) == Below(n, p) + if p(n) then {n} else {};
  }

  /** What one target adds to the report. */
  predicate Adds(r: Report, next: Report, init: Disk, p: Path, o: Outcome, a: Args, yaml: Reader) {
    && next.scanned == r.scanned + 1
    && next.unhandled == r.unhandled + (if NeedsPerson(init, p, o, a, yaml) then [p] else [])
    && next.backups == r.backups + (if Written(init, p, o, a, yaml) then [Backup(p, a)] else [])
    && next.matched == r.matched + (if Matched(init, p, o, a, yaml) then 1 else 0)
    && next.rewritten == r.rewritten + (if Written(init, p, o, a, yaml) then 1 else 0)
  }

  lemma NoteTells(r: Report, init: Disk, p: Path, o: Outcome, a: Args, yaml: Reader)
    requires TargetFate(init, p, o, a, yaml) != Abort
    ensures Adds(r, Note(r, p, TargetFate(init, p, o, a, yaml), a), init, p, o, a, yaml)
  {
  }

  /** What the fate of a file means for the report and for the file. */
  lemma FateTells(init: Disk, p: Path, o: Outcome, a: Args, yaml: Reader, r: Report)
    ensures TargetFate(init, p, o, a, yaml) == Abort <==> p in init && !o.ReadFails? && o.Undecodable?
    ensures var f := TargetFate(init, p, o, a, yaml);
            f != Abort ==>
              && Adds(r, Note(r, p, f, a), init, p, o, a, yaml)
              && forall now: Disk :: Settled(now, init, p, f, a) ==> EndsRight(now, init, p, o, a, yaml)
  {
    if TargetFate(init, p, o, a, yaml) != Abort { NoteTells(r, init, p, o, a, yaml); }
  }

  lemma {:induction false} RunAccounts(init: Disk, targets: seq<Path>, os: seq<Outcome>, n: nat, a: Args, yaml: Reader)
    requires n <= |targets| == |os| && NoneAborts(init, targets, os, n, a, yaml)
    ensures Accounts(ReportOf(init, targets, os, n, a, yaml), init, targets, os, n, a, yaml)
  {
    if n > 0 {
      RunAccounts(init, targets, os, n - 1, a, yaml);
      var r := ReportOf(init, targets, os, n - 1, a, yaml);
      NoteTells(r, init, targets[n - 1], os[n - 1], a, yaml);
      AccountsStep(r, Note(r, targets[n - 1], TargetFate(init, targets[n - 1], os[n - 1], a, yaml), a),
                   init, targets, os, n - 1, a, yaml);
    }
  }

  lemma AccountsStep(r: Report, next: Report, init: Disk, targets: seq<Path>, os: seq<Outcome>, n: nat, a: Args, yaml: Reader)
    requires n < |targets| == |os| && Accounts(r, init, targets, os, n, a, yaml)
    requires Adds(r, next, init, targets[n], os[n], a, yaml)
    ensures Accounts(next, init, targets, os, n + 1, a, yaml)
  {
    UnhandledStep(r, next, init, targets, os, n, a, yaml);
    BackupsStep(r, next, init, targets, os, n, a, yaml);
    CountsStep(r, next, init, targets, os, n, a, yaml);
  }

  lemma CountsStep(r: Report, next: Report, init: Disk, targets: seq<Path>, os: seq<Outcome>, n: nat, a: Args, yaml: Reader)
    requires n < |targets| == |os| && CountsMatched(r, init, targets, os, n, a, yaml)
    requires Adds(r, next, init, targets[n], os[n], a, yaml)
    ensures CountsMatched(next, init, targets, os, n + 1, a, yaml)
  {
    OneMore(n, MatchedAt(init, targets, os, a, yaml));
    OneMore(n, WrittenAt(init, targets, os, a, yaml));
  }

  lemma UnhandledStep(r: Report, next: Report, init: Disk, targets: seq<Path>, os: seq<Outcome>, n: nat, a: Args, yaml: Reader)
    requires n < |targets| == |os| && ListsUnhandled(r, init, targets, os, n, a, yaml)
    requires Adds(r, next, init, targets[n], os[n], a, yaml)
    ensures ListsUnhandled(next, init, targets, os, n + 1, a, yaml)
  {
  }

  lemma BackupsStep(r: Report, next: Report, init: Disk, targets: seq<Path>, os: seq<Outcome>, n: nat, a: Args, yaml: Reader)
    requires n < |targets| == |os| && ListsBackups(r, init, targets, os, n, a, yaml)
    requires Adds(r, next, init, targets[n], os[n], a, yaml)
    ensures ListsBackups(next, init, targets, os, n + 1, a, yaml)
  {
  }

  lemma RunEndsRight(report: Report, n: nat, now: Disk, init: Disk, targets: seq<Path>, os: seq<Outcome>, a: Args, yaml: Reader)
    requires n == |targets| == |os| && RunIs(report, true, n, now, init, targets, os, a, yaml)
    ensures AllEndRight(now, init, targets, os, a, yaml)
  {
    forall j | 0 <= j < n ensures EndsRight(now, init, targets[j], os[j], a, yaml) {
      FateTells(init, targets[j], os[j], a, yaml, report);
    }
  }

  /** No stale target is passed over: after a run that is not aborted it is planned in a rehearsal, rewritten with its
      backup listed, or listed for a person; and what is neither stale nor unreadable is not listed. */
  lemma StaleIsNoticed(r: Report, init: Disk, targets: seq<Path>, os: seq<Outcome>, a: Args, yaml: Reader, j: nat)
    requires |targets| == |os| && Distinct(targets) && j < |targets|
    requires Accounts(r, init, targets, os, |targets|, a, yaml)
    requires targets[j] in init && !os[j].ReadFails? && !os[j].Undecodable?
    ensures var p, t := targets[j], Normalise(init[targets[j]]);
            && (Stale(t, a.request, yaml) ==>
                  || p in r.unhandled
                  || (!a.apply && Matched(init, p, os[j], a, yaml))
                  || (Written(init, p, os[j], a, yaml) && Backup(p, a) in r.backups))
            && (Unreadable(t, a.request, yaml) ==> p in r.unhandled)
            && (!Stale(t, a.request, yaml) && !Unreadable(t, a.request, yaml) ==>
                  p !in r.unhandled && !Matched(init, p, os[j], a, yaml))
  {
    var p, t := targets[j], Normalise(init[targets[j]]);
    NoChangeIff(t, a.request, yaml);
    if NeedsPerson(init, p, os[j], a, yaml) { assert p in r.unhandled; }
  }

  // ---------- line endings ----------

  predicate NoReturns(s: string) { forall i :: 0 <= i < |s| ==> s[i] != '\r' }

  lemma {:induction false} NormalisedHasNoReturns(s: string)
    ensures NoReturns(Normalise(s))
    ensures NoReturns(s) <==> Normalise(s) == s
  {
    if s != "" {
      var rest := if s[0] == '\r' && |s| > 1 && s[1] == '\n' then s[2..] else s[1..];
      NormalisedHasNoReturns(rest);
      var t := Normalise(s);
      assert t[1..] == Normalise(rest);
      if s[0] != '\r' {
        assert s == [s[0]] + rest;
        assert forall i :: 0 <= i < |rest| ==> s[i + 1] == rest[i];
        assert forall i :: 0 < i < |s| ==> s[i] == rest[i - 1];
      }
    }
  }

  predicate Framed(raw: string, u: string, v: string, to: string, pre: string, q: string, q': string, post: string) {
    raw == pre + Quoted(q, v) + post && u == pre + Quoted(q', to) + post
  }

  /** The two texts differ in a quoted value alone. */
  ghost predicate BytesKept(raw: string, u: string, v: string, to: string) {
    exists pre, q, q', post :: IsQuote(q) && IsQuote(q') && Framed(raw, u, v, to, pre, q, q', post)
  }

  /** The rewritten file equals the file around the quoted value, byte for byte, exactly when the file has
      no carriage return: reading turns those into line feeds. */
  lemma BytesKeptIff(raw: string, a: Args, yaml: Reader)
    requires PlanRewrite(Normalise(raw), a.request, yaml).Rewrite?
    requires NoReturns(a.request.to)
    ensures var p := PlanRewrite(Normalise(raw), a.request, yaml);
            NoReturns(raw) <==> BytesKept(raw, p.text, p.oldValue, a.request.to)
  {
    var p := PlanRewrite(Normalise(raw), a.request, yaml);
    RewriteChangesValueOnly(Normalise(raw), a.request, yaml);
    var m, q :| OnlyValueChanged(Normalise(raw), p.text, p.oldValue, a.request.to, m, q);
    KeptIff(raw, p.text, p.oldValue, a.request.to, m, q);
  }

  lemma KeptIff(raw: string, u: string, v: string, to: string, m: Match, q: string)
    requires OnlyValueChanged(Normalise(raw), u, v, to, m, q) && NoReturns(to)
    ensures NoReturns(raw) <==> BytesKept(raw, u, v, to)
  {
    var t := Normalise(raw);
    NormalisedHasNoReturns(raw);
    RewrittenHasNoReturns(t, u, v, to, m, q);
    ReturnsOf(t[..m.value], Quoted(m.quote, v), t[m.tail..]);
    ReturnsOf(m.quote, v, m.quote);
    if NoReturns(raw) {
      assert Framed(raw, u, v, to, t[..m.value], m.quote, q, t[m.tail..]);
    }
    if pre, q1, q2, post :| IsQuote(q1) && IsQuote(q2) && Framed(raw, u, v, to, pre, q1, q2, post) {
      ReturnsOf(pre, Quoted(q2, to), post);
      ReturnsOf(pre, Quoted(q1, v), post);
      QuotedReturns(q1, v);
    }
  }

  lemma RewrittenHasNoReturns(t: string, u: string, v: string, to: string, m: Match, q: string)
    requires OnlyValueChanged(t, u, v, to, m, q) && NoReturns(t) && NoReturns(to)
    ensures NoReturns(u)
  {
    ReturnsOf(t[..m.value], Quoted(m.quote, v), t[m.tail..]);
    ReturnsOf(t[..m.value], Quoted(q, to), t[m.tail..]);
    QuotedReturns(q, to);
  }

  lemma ReturnsOf(x: string, y: string, z: string)
    ensures NoReturns(x + y + z) <==> NoReturns(x) && NoReturns(y) && NoReturns(z)
  {
    var w := x + y + z;
    assert forall i :: 0 <= i < |x| ==> w[i] == x[i];
    assert forall i :: 0 <= i < |y| ==> w[|x| + i] == y[i];
    assert forall i :: 0 <= i < |z| ==> w[|x| + |y| + i] == z[i];
  }

  lemma QuotedReturns(q: string, v: string)
    requires IsQuote(q) && NoReturns(v)
    ensures NoReturns(Quoted(q, v))
  {
  }

  // ---------- running again ----------

  /** A second run matches no file that was rewritten, whatever it would otherwise do, when the target is
      stripped. */
  lemma RewrittenStays(raw: string, a: Args, o: Outcome, b: Args, p: Outcome, yaml: Reader)
    requires FateOf(Some(raw), o, a, yaml).Rewritten? && b.request == a.request
    requires NoReturns(a.request.to) && Strip(a.request.to) == a.request.to
    ensures var again := FateOf(Some(FateOf(Some(raw), o, a, yaml).text), p, b, yaml);
            again == Unchanged || again == ReadError || again == Abort
  {
    PlannedTwice(Normalise(raw), a.request, yaml) by { NormalisedHasNoReturns(raw); }
    NotMatched(FateOf(Some(raw), o, a, yaml).text, p, b, yaml);
  }

  lemma PlannedTwice(t: string, r: Request, yaml: Reader)
    requires PlanRewrite(t, r, yaml).Rewrite? && NoReturns(t) && NoReturns(r.to) && Strip(r.to) == r.to
    ensures NoReturns(PlanRewrite(t, r, yaml).text) && PlanRewrite(PlanRewrite(t, r, yaml).text, r, yaml) == NoChange
  {
    ReplanIff(t, r, yaml);
    RewriteChangesValueOnly(t, r, yaml);
    var p := PlanRewrite(t, r, yaml);
    var m, q :| OnlyValueChanged(t, p.text, p.oldValue, r.to, m, q);
    RewrittenHasNoReturns(t, p.text, p.oldValue, r.to, m, q);
  }

  lemma NotMatched(u: string, p: Outcome, b: Args, yaml: Reader)
    requires NoReturns(u) && PlanRewrite(u, b.request, yaml) == NoChange
    ensures var f := FateOf(Some(u), p, b, yaml); f == Unchanged || f == ReadError || f == Abort
  {
    NormalisedHasNoReturns(u);
  }

  /** The text an undisturbed run leaves in a file. */
  function FinalText(raw: Option<string>, a: Args, yaml: Reader): Option<string> {
    var f := FateOf(raw, Works, a, yaml);
    if f.Rewritten? then Some(f.text) else raw
  }

  /** A run stopped in any state it passes through can be repeated: every target then gets the text that the
      run would have given it. */
  lemma StoppedRunResumes(d: Disk, init: Disk, targets: seq<Path>, a: Args, again: Args, yaml: Reader, j: nat)
    requires j < |targets| && AllSafe(d, init, targets, a, yaml)
    requires a.apply && again.apply && again.request == a.request
    requires NoReturns(a.request.to) && Strip(a.request.to) == a.request.to
    ensures FinalText(Lookup(d, targets[j]), again, yaml) == FinalText(Lookup(init, targets[j]), a, yaml)
  {
    var p := targets[j];
    if Lookup(d, p) != Lookup(init, p) {
      RewrittenStays(init[p], a, Works, again, Works, yaml);
    }
  }
}
