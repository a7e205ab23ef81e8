/** The first service's task manager: a bounded queue and workers that take a task through its phases.

    A step is what happens between two suspensions: a creation, a worker taking a task, or a worker
    resuming with the reply it waited for. Progress is in percent. */
module WorkerQueue {
  import opened Options
  import opened Sequences

  const QUEUE_MAX: nat := 200

  datatype FileKind = NoFile | Video | Audio | Document

  /** `mps`: a video address is given and its analysis is enabled. */
  datatype Source = Source(file: FileKind, mps: bool)

  datatype Status = Pending | Processing | Completed | Failed

  datatype Task = Task(tenant: string, source: Source, status: Status, progress: nat, docs: seq<string>,
                       error: Option<string>)

  /** What a worker waits for. */
  datatype Phase = Parsing | Extracting | Transcribing | Analysing | Uploading | Announcing | Apologising

  /** A worker's local state: non-blank texts collected, texts uploaded, and document ids received. */
  datatype Run = Run(id: nat, phase: Phase, texts: nat, sent: nat, docs: seq<string>)

  datatype Reply =
    | Raised(error: string)
    | Parsed(texts: nat)
    | Extracted(found: bool)
    | Heard(speech: bool)
    | Analysed(texts: nat)
    | Uploaded(doc: Option<string>)
    | Posted

  predicate Fits(p: Phase, r: Reply) {
    match r
    case Raised(_) => true
    case Parsed(_) => p == Parsing
    case Extracted(_) => p == Extracting
    case Heard(_) => p == Transcribing
    case Analysed(_) => p == Analysing
    case Uploaded(_) => p == Uploading
    case Posted => p == Announcing || p == Apologising
  }

  // ---------- one task in one worker ----------

  /** What a worker does after a reply: wait on, finish the task, or finish it and end itself. */
  datatype Next = Wait(run: Run) | Done | Dies

  function Fail(t: Task, run: Run, error: string): (Task, Next) {
    (t.(status := Failed, error := Some(error)), Wait(run.(phase := Apologising)))
  }

  /** The loop over texts: wait for the next upload, or complete. */
  function Upload(t: Task, run: Run): (Task, Next) {
    if run.sent < run.texts then (t, Wait(run.(phase := Uploading)))
    else (t.(docs := run.docs, status := Completed, progress := 100), Wait(run.(phase := Announcing)))
  }

  function Analyse(t: Task, run: Run): (Task, Next) {
    if t.source.mps then (t.(progress := 55), Wait(run.(phase := Analysing))) else Upload(t, run)
  }

  function Begin(t: Task, id: nat): (Task, Next) {
    var u, run := t.(status := Processing, progress := 5), Run(id, Parsing, 0, 0, []);
    if t.source.file.NoFile? then Analyse(u, run) else (u, Wait(run))
  }

  /** The worker's code from one suspension to the next. */
  function Continue(t: Task, run: Run, r: Reply): (Task, Next)
    requires Fits(run.phase, r)
  {
    match run.phase
    case Parsing =>
      if r.Raised? then Fail(t, run, r.error)
      else
        var parsed := run.(texts := r.texts);
        (match t.source.file
         case Video => (t.(progress := 30), Wait(parsed.(phase := Extracting)))
         case Audio => (t.(progress := 40), Wait(parsed.(phase := Transcribing)))
         case _ => Analyse(t.(progress := 30), parsed))
    case Extracting =>
      if r.Raised? then Fail(t, run, r.error)
      else if r.found then (t.(progress := 40), Wait(run.(phase := Transcribing)))
      else Analyse(t, run)
    case Transcribing =>
      if r.Raised? then Fail(t, run, r.error)
      else Analyse(t.(progress := 50), if r.speech then run.(texts := run.texts + 1) else run)
    case Analysing =>
      Upload(t.(progress := 60), if r.Raised? then run else run.(texts := run.texts + r.texts))
    case Uploading =>
      if r.Raised? then Fail(t, run, r.error)
      else Upload(t, run.(sent := run.sent + 1, docs := run.docs + if r.doc.Some? then [r.doc.value] else []))
    case Announcing => if r.Raised? then Fail(t, run, r.error) else (t, Done)
    case Apologising => (t, if r.Raised? then Dies else Done)
  }

  predicate Ended(t: Task) { t.status == Completed || t.status == Failed }

  predicate Fresh(t: Task) { t.status == Pending && t.progress == 0 && t.docs == [] && t.error == None }

  /** How a held task looks while its worker waits. */
  predicate InPhase(t: Task, run: Run) {
    && run.sent <= run.texts && |run.docs| <= run.sent
    && (run.phase.Uploading? ==> run.sent < run.texts)
    && (run.phase.Parsing? || run.phase.Extracting? || run.phase.Transcribing? || run.phase.Analysing? ==> run.sent == 0)
    && (run.phase.Announcing? ==> Complete(t) && t.docs == run.docs && run.sent == run.texts)
    && (run.phase.Apologising? ==> Broken(t))
    && (!run.phase.Announcing? && !run.phase.Apologising? ==>
          t.status == Processing && t.docs == [] && t.error == None && Within(t, run.phase))
  }

  predicate Within(t: Task, p: Phase) {
    match p
    case Parsing => t.progress == 5
    case Extracting => t.progress == 30
    case Transcribing => t.progress == 40
    case Analysing => t.progress == 55
    case _ => 5 <= t.progress <= 60
  }

  predicate Complete(t: Task) { t.status == Completed && t.progress == 100 && t.error == None }

  /** A failed task at full progress had been completed. */
  predicate Broken(t: Task) { t.status == Failed && t.error != None && (t.progress == 100 || (t.progress <= 60 && t.docs == [])) }

  lemma BeginIs(t: Task, id: nat)
    requires Fresh(t)
    ensures var (u, n) := Begin(t, id);
            n.Wait? && n.run.id == id && InPhase(u, n.run) && u.progress >= 5 && u.tenant == t.tenant
  {
  }

  /** A reply keeps the worker's picture of its task true, never lowers the progress, and touches an ended
      task's status only when the announcement of its completion raises. */
  lemma ContinueIs(t: Task, run: Run, r: Reply)
    requires InPhase(t, run) && Fits(run.phase, r)
    ensures var (u, n) := Continue(t, run, r);
            && (n.Wait? ==> n.run.id == run.id && InPhase(u, n.run))
            && (!n.Wait? ==> u == t && (Complete(u) || Broken(u)))
            && u.progress >= t.progress && u.tenant == t.tenant && u.source == t.source
            && (Ended(t) && u.status != t.status <==> run.phase.Announcing? && r.Raised?)
            && (n.Dies? <==> run.phase.Apologising? && r.Raised?)
  {
  }

  // ---------- the machine ----------

  /** Where a task is; the history of the queue is kept beside it. */
  datatype Place = Queued | Held(worker: nat) | Finished | Orphaned

  datatype State = State(tasks: map<nat, Task>, queue: seq<nat>, unfinished: int, runs: map<nat, Run>, live: set<nat>,
                         nextId: nat, place: map<nat, Place>, enqueued: seq<nat>, started: seq<nat>)

  datatype Event =
    | Create(tenant: string, source: Source)
    | Take(worker: nat)
    | Resume(worker: nat, reply: Reply)

  function Initial(workers: set<nat>): State { State(map[], [], 0, map[], workers, 0, map[], [], []) }

  function NewTask(tenant: string, source: Source): Task { Task(tenant, source, Pending, 0, [], None) }

  /** `create_task`: registered first, then put in the queue if there is room. */
  function CreateStep(s: State, tenant: string, source: Source): State {
    var registered := s.(tasks := s.tasks[s.nextId := NewTask(tenant, source)], nextId := s.nextId + 1);
    if |s.queue| >= QUEUE_MAX then registered.(place := s.place[s.nextId := Orphaned])
    else registered.(queue := s.queue + [s.nextId], unfinished := s.unfinished + 1,
                     place := s.place[s.nextId := Queued], enqueued := s.enqueued + [s.nextId])
  }

  predicate CanTake(s: State, w: nat) { w in s.live && w !in s.runs && s.queue != [] && s.queue[0] in s.tasks }

  function TakeStep(s: State, w: nat): State
    requires CanTake(s, w)
  {
    var id := s.queue[0];
    var (t, n) := Begin(s.tasks[id], id);
    s.(tasks := s.tasks[id := t], queue := s.queue[1..],
       runs := if n.Wait? then s.runs[w := n.run] else s.runs,
       place := s.place[id := Held(w)], started := s.started + [id])
  }

  predicate CanResume(s: State, w: nat, r: Reply) {
    w in s.runs && s.runs[w].id in s.tasks && Fits(s.runs[w].phase, r)
  }

  function ResumeStep(s: State, w: nat, r: Reply): State
    requires CanResume(s, w, r)
  {
    var run := s.runs[w];
    var (t, n) := Continue(s.tasks[run.id], run, r);
    var u := s.(tasks := s.tasks[run.id := t]);
    match n
    case Wait(next) => u.(runs := s.runs[w := next])
    case _ => u.(runs := s.runs - {w}, unfinished := s.unfinished - 1, place := s.place[run.id := Finished],
                 live := if n.Dies? then s.live - {w} else s.live)
  }

  predicate Enabled(s: State, e: Event) {
    match e
    case Create(_, _) => true
    case Take(w) => CanTake(s, w)
    case Resume(w, r) => CanResume(s, w, r)
  }

  function Step(s: State, e: Event): State
    requires Enabled(s, e)
  {
    match e
    case Create(tenant, source) => CreateStep(s, tenant, source)
    case Take(w) => TakeStep(s, w)
    case Resume(w, r) => ResumeStep(s, w, r)
  }

  predicate Possible(s: State, es: seq<Event>)
    decreases |es|
  {
    es == [] || (Enabled(s, es[0]) && Possible(Step(s, es[0]), es[1..]))
  }

  function Exec(s: State, es: seq<Event>): State
    requires Possible(s, es)
    decreases |es|
  {
    if es == [] then s else Exec(Step(s, es[0]), es[1..])
  }

  // ---------- the invariant ----------

  /** The task looks as its place says, and is in that place only. */
  predicate Good(s: State, id: nat)
    requires id in s.tasks && id in s.place
  {
    && (id in s.queue <==> s.place[id] == Queued)
    && match s.place[id]
       case Queued => Fresh(s.tasks[id])
       case Orphaned => Fresh(s.tasks[id])
       case Held(w) => w in s.runs && s.runs[w].id == id && InPhase(s.tasks[id], s.runs[w])
       case Finished => Complete(s.tasks[id]) || Broken(s.tasks[id])
  }

  predicate GoodRun(s: State, w: nat)
    requires w in s.runs
  {
    w in s.live && s.runs[w].id in s.place && s.place[s.runs[w].id] == Held(w)
  }

  predicate Inv(s: State) {
    && s.tasks.Keys == s.place.Keys && (forall id :: id in s.tasks ==> id < s.nextId)
    && (forall id :: id in s.tasks ==> Good(s, id))
    && (forall w :: w in s.runs ==> GoodRun(s, w))
    && QueueInv(s)
  }

  predicate QueueInv(s: State) {
    && |s.queue| <= QUEUE_MAX && s.unfinished == |s.queue| + |s.runs|
    && s.enqueued == s.started + s.queue
    && Distinct(s.enqueued) && (forall i :: 0 <= i < |s.enqueued| ==> s.enqueued[i] in s.tasks)
  }

  lemma CreateKeeps(s: State, tenant: string, source: Source)
    requires Inv(s)
    ensures Inv(CreateStep(s, tenant, source))
  {
    var t := CreateStep(s, tenant, source);
    QueueIds(s);
    forall id | id in t.tasks ensures Good(t, id) {
      if id != s.nextId { assert Good(s, id); }
      GoodAfterCreate(s, tenant, source, id);
    }
    forall w | w in t.runs ensures GoodRun(t, w) {
      assert GoodRun(s, w);
    }
    CreateQueue(s, tenant, source);
  }

  lemma GoodAfterCreate(s: State, tenant: string, source: Source, id: nat)
    requires id != s.nextId ==> id in s.tasks && id in s.place && Good(s, id)
    requires s.nextId !in s.queue
    ensures var t := CreateStep(s, tenant, source); id in t.tasks && id in t.place && Good(t, id)
  {
    assert id in s.queue + [s.nextId] <==> id in s.queue || id == s.nextId;
  }

  lemma CreateQueue(s: State, tenant: string, source: Source)
    requires QueueInv(s) && s.nextId !in s.tasks
    ensures QueueInv(CreateStep(s, tenant, source))
  {
    var id, q := s.nextId, s.enqueued + [s.nextId];
    assert s.started + (s.queue + [id]) == (s.started + s.queue) + [id];
    forall i, j | 0 <= i < j < |q| ensures q[i] != q[j] {
      assert s.enqueued[i] in s.tasks;
    }
  }

  /** Queued ids are those of the enqueued ones that were not started. */
  lemma QueueIds(s: State)
    requires QueueInv(s)
    ensures forall i :: 0 <= i < |s.queue| ==> s.queue[i] in s.tasks
    ensures Distinct(s.queue)
  {
    forall i | 0 <= i < |s.queue| ensures s.queue[i] == s.enqueued[|s.started| + i] {
    }
  }

  lemma TakeKeeps(s: State, w: nat)
    requires Inv(s) && CanTake(s, w)
    ensures Inv(TakeStep(s, w))
  {
    var t, id := TakeStep(s, w), s.queue[0];
    QueueIds(s);
    assert Good(s, id);
    BeginIs(s.tasks[id], id);
    assert forall x :: x in s.queue[1..] <==> x in s.queue && x != id;
    forall x | x in t.tasks ensures Good(t, x) {
      assert Good(s, x);
    }
    forall v | v in t.runs ensures GoodRun(t, v) {
      assert v != w ==> GoodRun(s, v);
    }
    TakeQueue(s, w);
  }

  lemma TakeQueue(s: State, w: nat)
    requires QueueInv(s) && CanTake(s, w)
    ensures QueueInv(TakeStep(s, w))
  {
    var t, id := TakeStep(s, w), s.queue[0];
    assert s.started + s.queue == (s.started + [id]) + s.queue[1..];
    assert t.runs.Keys == s.runs.Keys + {w} && |t.runs.Keys| == |t.runs| && |s.runs.Keys| == |s.runs|;
  }

  lemma ResumeKeeps(s: State, w: nat, r: Reply)
    requires Inv(s) && CanResume(s, w, r)
    ensures Inv(ResumeStep(s, w, r))
  {
    var t := ResumeStep(s, w, r);
    assert GoodRun(s, w);
    assert Good(s, s.runs[w].id);
    forall x | x in t.tasks ensures Good(t, x) {
      assert Good(s, x);
      GoodAfterResume(s, w, r, x);
    }
    forall v | v in t.runs ensures GoodRun(t, v) {
      RunAfterResume(s, w, r, v);
    }
    ResumeQueue(s, w, r);
  }

  lemma RunAfterResume(s: State, w: nat, r: Reply, v: nat)
    requires CanResume(s, w, r) && GoodRun(s, w) && v in ResumeStep(s, w, r).runs
    requires v in s.runs ==> GoodRun(s, v)
    requires InPhase(s.tasks[s.runs[w].id], s.runs[w])
    ensures GoodRun(ResumeStep(s, w, r), v)
  {
    ContinueIs(s.tasks[s.runs[w].id], s.runs[w], r);
  }

  lemma GoodAfterResume(s: State, w: nat, r: Reply, x: nat)
    requires CanResume(s, w, r) && s.runs[w].id in s.place && Good(s, s.runs[w].id) && s.place[s.runs[w].id] == Held(w)
    requires x in s.tasks && x in s.place && Good(s, x)
    ensures var t := ResumeStep(s, w, r); x in t.tasks && x in t.place && Good(t, x)
  {
    ContinueIs(s.tasks[s.runs[w].id], s.runs[w], r);
  }

  lemma ResumeQueue(s: State, w: nat, r: Reply)
    requires QueueInv(s) && CanResume(s, w, r)
    ensures QueueInv(ResumeStep(s, w, r))
  {
    var t, next := ResumeStep(s, w, r), Continue(s.tasks[s.runs[w].id], s.runs[w], r).1;
    assert t.tasks.Keys == s.tasks.Keys;
    assert next.Wait? ==> t.runs.Keys == s.runs.Keys;
    SameSize(t.runs, s.runs);
    RemoveSize(s.runs, w);
  }

  lemma SameSize(m: map<nat, Run>, n: map<nat, Run>)
    ensures m.Keys == n.Keys ==> |m| == |n|
  {
    assert |m.Keys| == |m| && |n.Keys| == |n|;
  }

  lemma RemoveSize(m: map<nat, Run>, w: nat)
    requires w in m
    ensures |m - {w}| == |m| - 1
  {
    assert (m - {w}).Keys == m.Keys - {w};
    assert |m.Keys| == |m| && |(m - {w}).Keys| == |m - {w}|;
  }

  lemma StepKeeps(s: State, e: Event)
    requires Inv(s) && Enabled(s, e)
    ensures Inv(Step(s, e))
  {
    match e
    case Create(tenant, source) => CreateKeeps(s, tenant, source);
    case Take(w) => TakeKeeps(s, w);
    case Resume(w, r) => ResumeKeeps(s, w, r);
  }

  /** The invariant holds in every state of every run. */
  lemma {:induction false} ExecKeeps(s: State, es: seq<Event>)
    requires Inv(s) && Possible(s, es)
    ensures Inv(Exec(s, es))
    decreases |es|
  {
    if es != [] {
      StepKeeps(s, es[0]);
      ExecKeeps(Step(s, es[0]), es[1..]);
    }
  }

  // ---------- what holds in every run ----------

  function Reached(workers: set<nat>, es: seq<Event>): State
    requires Possible(Initial(workers), es)
  {
    Exec(Initial(workers), es)
  }

  predicate HeldBy(s: State, id: nat, w: nat) { w in s.runs && s.runs[w].id == id }

  /** The task is in the place recorded for it and, by what can be seen of the queue and the workers, in no
      other; its status tells whether it was started. */
  ghost predicate OnePlace(s: State, id: nat)
    requires id in s.tasks && id in s.place
  {
    && (id in s.queue <==> s.place[id] == Queued)
    && ((exists w :: HeldBy(s, id, w)) <==> s.place[id].Held?)
    && (id in s.enqueued <==> s.place[id] != Orphaned)
    && (id in s.started <==> s.place[id] != Orphaned && s.place[id] != Queued)
    && (s.tasks[id].status == Pending <==> s.place[id] == Queued || s.place[id] == Orphaned)
  }

  /** In every run each task is queued, held by one worker, over, or was refused by the full queue: exactly
      one of them. The queue is bounded, every task that joined it is accounted for in order, none is
      started twice, and the count of unfinished tasks is right. */
  lemma EveryTaskInOnePlace(workers: set<nat>, es: seq<Event>, id: nat)
    requires Possible(Initial(workers), es)
    ensures var s := Reached(workers, es);
            && |s.queue| <= QUEUE_MAX && s.unfinished == |s.queue| + |s.runs|
            && s.enqueued == s.started + s.queue && Distinct(s.enqueued)
            && (forall v, w :: HeldBy(s, id, v) && HeldBy(s, id, w) ==> v == w)
            && (id in s.tasks ==> id in s.place && OnePlace(s, id))
  {
    ExecKeeps(Initial(workers), es);
    JoinedIff(Initial(workers), es, id);
    var s := Reached(workers, es);
    forall w | HeldBy(s, id, w) ensures id in s.place && s.place[id] == Held(w) {
      assert GoodRun(s, w);
    }
    if id in s.tasks {
      InOnePlace(s, id);
    }
  }

  lemma InOnePlace(s: State, id: nat)
    requires Inv(s) && id in s.tasks && JoinedRight(s, id)
    requires forall w :: HeldBy(s, id, w) ==> id in s.place && s.place[id] == Held(w)
    ensures id in s.place && OnePlace(s, id)
  {
    assert Good(s, id);
    StartedIff(s, id);
    if s.place[id].Held? {
      assert HeldBy(s, id, s.place[id].worker);
    }
  }

  /** Exactly the tasks that were not refused have joined the queue. */
  predicate JoinedRight(s: State, id: nat) {
    id in s.place ==> (id in s.enqueued <==> s.place[id] != Orphaned)
  }

  lemma {:induction false} JoinedIff(s: State, es: seq<Event>, id: nat)
    requires Inv(s) && Possible(s, es) && JoinedRight(s, id)
    ensures JoinedRight(Exec(s, es), id)
    decreases |es|
  {
    if es != [] {
      StepKeeps(s, es[0]);
      JoinedStep(s, es[0], id);
      JoinedIff(Step(s, es[0]), es[1..], id);
    }
  }

  lemma JoinedStep(s: State, e: Event, id: nat)
    requires Inv(s) && Enabled(s, e) && JoinedRight(s, id)
    ensures JoinedRight(Step(s, e), id)
  {
    assert e.Create? && id == s.nextId ==> id !in s.enqueued;
    if e.Take? {
      QueueIds(s);
      assert Good(s, s.queue[0]);
    }
    if e.Resume? {
      assert GoodRun(s, e.worker);
    }
  }

  lemma StartedIff(s: State, id: nat)
    requires QueueInv(s)
    ensures id in s.started <==> id in s.enqueued && id !in s.queue
  {
    SplitIff(s.started, s.queue, id);
  }

  lemma SplitIff(a: seq<nat>, b: seq<nat>, id: nat)
    requires Distinct(a + b)
    ensures id in a <==> id in a + b && id !in b
  {
    var c := a + b;
    assert forall j :: 0 <= j < |b| ==> b[j] == c[|a| + j];
    if id in a {
      var i :| 0 <= i < |a| && a[i] == id;
      assert c[i] == id;
      assert forall k :: |a| <= k < |c| ==> c[k] != c[i];
    }
  }

  /** The task the step is about, if there is one yet. */
  function Subject(s: State, e: Event): Option<nat>
    requires Enabled(s, e)
  {
    match e
    case Create(_, _) => None
    case Take(w) => Some(s.queue[0])
    case Resume(w, _) => Some(s.runs[w].id)
  }

  predicate Announced(s: State, e: Event, id: nat) {
    e.Resume? && e.reply.Raised? && e.worker in s.runs && s.runs[e.worker].id == id
    && s.runs[e.worker].phase == Announcing
  }

  /** In a step no task's progress drops; only the subject changes at all; an ended status changes exactly
      when announcing the completion raises, and then the completed task becomes a failed one. */
  lemma StepChanges(s: State, e: Event, id: nat)
    requires Inv(s) && Enabled(s, e) && id in s.tasks
    ensures var t := Step(s, e);
            && id in t.tasks && t.tasks[id].progress >= s.tasks[id].progress && t.tasks[id].tenant == s.tasks[id].tenant
            && (Subject(s, e) != Some(id) ==> t.tasks[id] == s.tasks[id])
            && (Ended(s.tasks[id]) && t.tasks[id].status != s.tasks[id].status <==> Announced(s, e, id))
            && (Announced(s, e, id) ==> s.tasks[id].status == Completed && t.tasks[id].status == Failed)
            && (s.place[id] == Orphaned ==> t.place[id] == Orphaned && t.tasks[id] == s.tasks[id])
            && (s.place[id] == Finished ==> t.place[id] == Finished && t.tasks[id] == s.tasks[id])
  {
    assert Good(s, id);
    match e {
      case Create(_, _) =>
      case Take(w) =>
        QueueIds(s);
        assert Good(s, s.queue[0]);
        BeginIs(s.tasks[s.queue[0]], s.queue[0]);
      case Resume(w, r) =>
        assert GoodRun(s, w);
        assert Good(s, s.runs[w].id);
        ContinueIs(s.tasks[s.runs[w].id], s.runs[w], r);
    }
  }

  /** No announcement that the task is complete raises: the callback fails with HTTP errors at most. */
  predicate Quiet(s: State, es: seq<Event>, id: nat)
    requires Possible(s, es)
    decreases |es|
  {
    es == [] || (!Announced(s, es[0], id) && Quiet(Step(s, es[0]), es[1..], id))
  }

  /** Over any run progress does not drop; refused tasks stay as they are for good, and so do finished ones;
      an ended status stays if and only if the announcement never raises. */
  lemma {:induction false} RunChanges(s: State, es: seq<Event>, id: nat)
    requires Inv(s) && Possible(s, es) && id in s.tasks
    ensures var t := Exec(s, es);
            && id in t.tasks && id in t.place && t.tasks[id].progress >= s.tasks[id].progress
            && (s.place[id] == Orphaned ==> t.place[id] == Orphaned && t.tasks[id] == s.tasks[id])
            && (s.place[id] == Finished ==> t.place[id] == Finished && t.tasks[id] == s.tasks[id])
            && (s.tasks[id].status == Failed ==> t.tasks[id].status == Failed)
            && (s.tasks[id].status == Completed ==> Ended(t.tasks[id]))
            && (s.tasks[id].status == Completed ==> (t.tasks[id].status == Completed <==> Quiet(s, es, id)))
    decreases |es|
  {
    ExecKeeps(s, es);
    if es != [] {
      StepKeeps(s, es[0]);
      StepChanges(s, es[0], id);
      RunChanges(Step(s, es[0]), es[1..], id);
      if s.tasks[id].status == Failed || Step(s, es[0]).tasks[id].status == Failed {
        FailedIsQuiet(Step(s, es[0]), es[1..], id);
      }
    }
  }

  lemma {:induction false} FailedIsQuiet(s: State, es: seq<Event>, id: nat)
    requires Inv(s) && Possible(s, es) && id in s.tasks && s.tasks[id].status == Failed
    ensures Quiet(s, es, id)
    decreases |es|
  {
    if es != [] {
      StepKeeps(s, es[0]);
      StepChanges(s, es[0], id);
      FailedIsQuiet(Step(s, es[0]), es[1..], id);
    }
  }

  /** A completed task has full progress; full progress means completed, now or before a failed announcement. */
  lemma FullProgress(workers: set<nat>, es: seq<Event>, id: nat)
    requires Possible(Initial(workers), es) && id in Reached(workers, es).tasks
    ensures var t := Reached(workers, es).tasks[id];
            && t.progress <= 100
            && (t.status == Completed ==> t.progress == 100 && t.error == None)
            && (t.progress == 100 ==> t.status == Completed || (t.status == Failed && t.error != None))
            && (t.docs != [] ==> t.progress == 100)
  {
    ExecKeeps(Initial(workers), es);
    assert Good(Reached(workers, es), id);
  }

  /** A new task is refused by the queue exactly when the queue is full. It is registered all the same, and
      no run ever takes it up. */
  lemma RefusedIff(s: State, tenant: string, source: Source, es: seq<Event>)
    requires Inv(s) && Possible(CreateStep(s, tenant, source), es)
    ensures var id := s.nextId;
            var t := CreateStep(s, tenant, source);
            && id in t.tasks && id in t.place
            && (|s.queue| == QUEUE_MAX <==> t.place[id] == Orphaned)
            && (|s.queue| == QUEUE_MAX ==>
                  id in Exec(t, es).tasks && Exec(t, es).tasks[id] == NewTask(tenant, source) && id !in Exec(t, es).queue)
  {
    CreateKeeps(s, tenant, source);
    var t := CreateStep(s, tenant, source);
    RunChanges(t, es, s.nextId);
    ExecKeeps(t, es);
    if |s.queue| == QUEUE_MAX {
      assert Good(Exec(t, es), s.nextId);
    }
  }

  /** Workers end exactly when reporting a failure raises too; once all have ended the queue is never served. */
  lemma WorkersLost(s: State, e: Event)
    requires Inv(s) && Enabled(s, e)
    ensures Step(s, e).live <= s.live
    ensures Step(s, e).live != s.live <==>
            e.Resume? && e.reply.Raised? && s.runs[e.worker].phase == Apologising
    ensures s.live == {} ==> e.Create? && Step(s, e).started == s.started
  {
    if e.Resume? {
      assert GoodRun(s, e.worker);
      assert Good(s, s.runs[e.worker].id);
      ContinueIs(s.tasks[s.runs[e.worker].id], s.runs[e.worker], e.reply);
    }
  }

  /** The failing input for stable outcomes: a completed task turns failed when the callback address is bad. */
  lemma CompletedTurnsFailed()
    ensures var es := [Create("t", Source(NoFile, false)), Take(0), Resume(0, Raised("invalid URL"))];
            && Possible(Initial({0}), es)
            && Possible(Initial({0}), es[..2])
            && Reached({0}, es[..2]).tasks[0].status == Completed
            && Reached({0}, es).tasks[0].status == Failed && Reached({0}, es).tasks[0].progress == 100
  {
    var s0 := Initial({0});
    var es := [Create("t", Source(NoFile, false)), Take(0), Resume(0, Raised("invalid URL"))];
    var s1 := Step(s0, es[0]);
    assert s1.queue == [0];
    var s2 := Step(s1, es[1]);
    assert 0 in s2.runs && s2.runs[0] == Run(0, Announcing, 0, 0, []);
    assert es[1..][0] == es[1] && es[1..][1..] == [es[2]] && [es[2]][1..] == [];
    assert es[..2][0] == es[0] && es[..2][1..] == [es[1]] && [es[1]][1..] == [];
  }

  // ---------- the object ----------

  datatype Answer =
    | NotFound
    | Forbidden
    | Found(status: Status, progress: nat, error: Option<string>, docs: seq<string>)

  class TaskManager {
    var tasks: map<nat, Task>
    var queue: seq<nat>
    var unfinished: int
    var runs: map<nat, Run>
    var live: set<nat>
    var nextId: nat
    ghost var place: map<nat, Place>
    ghost var enqueued: seq<nat>
    ghost var started: seq<nat>

    ghost function Snapshot(): State
      reads this
    {
      State(tasks, queue, unfinished, runs, live, nextId, place, enqueued, started)
    }

    constructor (workers: set<nat>)
      ensures Snapshot() == Initial(workers) && Inv(Snapshot())
    {
      tasks, queue, unfinished, runs, live, nextId := map[], [], 0, map[], workers, 0;
      place, enqueued, started := map[], [], [];
    }

    /** The id is returned, or the queue's exception is raised with the task registered. */
    method CreateTask(tenant: string, source: Source) returns (id: Option<nat>)
      requires Inv(Snapshot())
      modifies this
      ensures Snapshot() == CreateStep(old(Snapshot()), tenant, source) && Inv(Snapshot())
      ensures id == if |old(queue)| < QUEUE_MAX then Some(old(nextId)) else None
    {
      CreateKeeps(Snapshot(), tenant, source);
      var taskId := nextId;
      nextId := nextId + 1;
      tasks := tasks[taskId := Task(tenant, source, Pending, 0, [], None)];
      if |queue| >= QUEUE_MAX {
        place := place[taskId := Orphaned];
        return None;
      }
      Put(taskId);
      id := Some(taskId);
    }

    /** `put_nowait` into a queue with room */
    method Put(id: nat)
      modifies this
      ensures Snapshot() ==
              old(Snapshot()).(queue := old(queue) + [id], unfinished := old(unfinished) + 1,
                               place := old(place)[id := Queued], enqueued := old(enqueued) + [id])
    {
      queue := queue + [id];
      unfinished := unfinished + 1;
      place := place[id := Queued];
      enqueued := enqueued + [id];
    }

    /** `get_status`: only the tenant of a task sees it. */
    method GetStatus(id: nat, tenant: string) returns (a: Answer)
      ensures a.NotFound? <==> id !in tasks
      ensures a.Forbidden? <==> id in tasks && tasks[id].tenant != tenant
      ensures a.Found? ==> a == Found(tasks[id].status, tasks[id].progress, tasks[id].error, tasks[id].docs)
    {
      if id !in tasks {
        return NotFound;
      }
      var task := tasks[id];
      if task.tenant != tenant {
        return Forbidden;
      }
      a := Found(task.status, task.progress, task.error, task.docs);
    }

    /** A worker takes the first task and runs to its first suspension. */
    method TakeTask(w: nat)
      requires Inv(Snapshot()) && CanTake(Snapshot(), w)
      modifies this
      ensures Snapshot() == TakeStep(old(Snapshot()), w) && Inv(Snapshot())
    {
      TakeKeeps(Snapshot(), w);
      BeginIs(tasks[queue[0]], queue[0]) by { assert Good(Snapshot(), queue[0]); }
      var id := queue[0];
      queue := queue[1..];
      var task := tasks[id].(status := Processing, progress := 5);
      var run := Run(id, Parsing, 0, 0, []);
      if task.source.file.NoFile? {
        task, run := Advance(task, run);
      }
      tasks := tasks[id := task];
      runs := runs[w := run];
      place := place[id := Held(w)];
      started := started + [id];
    }

    /** From the analysis of the video on. */
    static method Advance(task: Task, run: Run) returns (t: Task, r: Run)
      ensures (t, Wait(r)) == Analyse(task, run)
    {
      t, r := task, run;
      if t.source.mps {
        t := t.(progress := 55);
        r := r.(phase := Analysing);
      } else {
        t, r := UploadNext(t, r);
      }
    }

    static method UploadNext(task: Task, run: Run) returns (t: Task, r: Run)
      ensures (t, Wait(r)) == Upload(task, run)
    {
      t, r := task, run;
      if r.sent < r.texts {
        r := r.(phase := Uploading);
      } else {
        t := t.(docs := r.docs, status := Completed, progress := 100);
        r := r.(phase := Announcing);
      }
    }

    /** The worker's code from one suspension to the next. */
    static method Work(task: Task, before: Run, reply: Reply) returns (t: Task, n: Next)
      requires Fits(before.phase, reply)
      ensures (t, n) == Continue(task, before, reply)
    {
      t := task;
      var run := before;
      if run.phase.Apologising? {
        return t, if reply.Raised? then Dies else Done;
      }
      if reply.Raised? && !run.phase.Analysing? {
        t := t.(status := Failed, error := Some(reply.error));
        return t, Wait(run.(phase := Apologising));
      }
      if run.phase.Announcing? {
        return t, Done;
      }
      if run.phase.Uploading? {
        run := run.(sent := run.sent + 1);
        if reply.doc.Some? {
          run := run.(docs := run.docs + [reply.doc.value]);
        }
        assert run.docs == before.docs + if reply.doc.Some? then [reply.doc.value] else [];
        t, run := UploadNext(t, run);
        return t, Wait(run);
      }
      if run.phase.Analysing? {
        if !reply.Raised? {
          run := run.(texts := run.texts + reply.texts);
        }
        t := t.(progress := 60);
        t, run := UploadNext(t, run);
        return t, Wait(run);
      }
      if run.phase.Parsing? {
        run := run.(texts := reply.texts);
        t := t.(progress := 30);
        if t.source.file.Video? {
          return t, Wait(run.(phase := Extracting));
        }
        if t.source.file.Audio? {
          return t.(progress := 40), Wait(run.(phase := Transcribing));
        }
      } else if run.phase.Extracting? {
        if reply.found {
          return t.(progress := 40), Wait(run.(phase := Transcribing));
        }
      } else {
        if reply.speech {
          run := run.(texts := run.texts + 1);
        }
        t := t.(progress := 50);
      }
      t, run := Advance(t, run);
      n := Wait(run);
    }

    /** A worker resumes with a reply and runs to its next suspension, or finishes the task. */
    method ResumeWorker(w: nat, reply: Reply)
      requires Inv(Snapshot()) && CanResume(Snapshot(), w, reply)
      modifies this
      ensures Snapshot() == ResumeStep(old(Snapshot()), w, reply) && Inv(Snapshot())
    {
      ResumeKeeps(Snapshot(), w, reply);
      var run := runs[w];
      var task, next := Work(tasks[run.id], run, reply);
      tasks := tasks[run.id := task];
      if next.Wait? {
        runs := runs[w := next.run];
      } else {
        runs := runs - {w};
        unfinished := unfinished - 1;
        place := place[run.id := Finished];
        if next.Dies? {
          live := live - {w};
        }
      }
    }
  }
}
