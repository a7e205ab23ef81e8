/** Which event does what: ends, places, handles and the repository of the task engine, event by event and over
    whole runs. */
module TaskEffects {
  import opened Options
  import opened Sequences
  import opened TaskStates
  import opened TaskInvariants
  import opened TaskRuns

  // ---------- ends ----------

  /** The event is the end of the task's own pipeline. */
  ghost predicate OwnFinish(s: State, e: Event, id: nat) {
    e.EvFinish? && e.worker in s.running && s.running[e.worker] == id
  }

  /** The validation of the task comes to a verdict, not having been called off. */
  ghost predicate Judged(s: State, e: Event, id: nat, verdict: Verdict) {
    e == EvEnqueue(id, verdict) && id in s.handles && !s.handles[id].cancelled
  }

  ghost predicate Completes(s: State, e: Event, id: nat) {
    (OwnFinish(s, e, id) && e.outcome == Succeeds) || e == EvResume(id, Settled(Completed))
  }

  ghost predicate Fails(s: State, e: Event, id: nat) {
    || Judged(s, e, id, Invalid)
    || (OwnFinish(s, e, id) && e.outcome == Breaks)
    || e == EvResume(id, Settled(Failed))
  }

  ghost predicate Cancels(s: State, e: Event, id: nat) {
    e == EvCancel(id) || (OwnFinish(s, e, id) && e.outcome == StopsOnCancel)
  }

  ghost predicate Starts(s: State, e: Event, id: nat) { e.EvTake? && s.queue != [] && s.queue[0] == id }

  /** The status of a task that was live before the event. */
  ghost predicate Becomes(s: State, e: Event, t: State, id: nat)
    requires id in s.tasks
  {
    && id in t.tasks && t.tasks[id].key == s.tasks[id].key
    && (t.tasks[id].status == Completed <==> Completes(s, e, id))
    && (t.tasks[id].status == Failed <==> Fails(s, e, id))
    && (t.tasks[id].status == Cancelled <==> Cancels(s, e, id))
    && (t.tasks[id].status == Queued <==>
          Judged(s, e, id, Valid) || (s.tasks[id].status == Queued && Live(t.tasks[id]) && !Starts(s, e, id)))
    && (t.tasks[id].status == Processing <==>
          Starts(s, e, id) || (s.tasks[id].status == Processing && Live(t.tasks[id])))
  }

  /** Which event brings a live task to which status, for every event but a restart. */
  lemma LiveStepIff(s: State, e: Event, id: nat)
    requires Shape(s) && Enabled(s, e) && !e.EvRestart? && id in s.tasks && Live(s.tasks[id])
    ensures Becomes(s, e, Next(s, e), id)
  {
    match e
    case EvEnqueue(x, verdict) => LiveEnqueue(s, x, verdict, id);
    case EvTake(w) => LiveTake(s, w, id);
    case EvFinish(w, outcome) => LiveFinish(s, w, outcome, id);
    case EvCancel(x) => LiveCancel(s, x, id);
    case EvResume(x, end) => LiveResume(s, x, end, id);
    case EvCheckpoint(_) => SameTask(s, e, Next(s, e), id);
    case EvExpire(_) => SameTask(s, e, Next(s, e), id);
    case EvResumeSave(_) => SameTask(s, e, Next(s, e), id);
    case EvSubmit(_, _) => KeepsStep(s, e); SameTask(s, e, Next(s, e), id);
    case EvRetryOntology(_, _, _) => KeepsStep(s, e); SameTask(s, e, Next(s, e), id);
    case EvDirectCreate(_, _) => KeepsStep(s, e); SameTask(s, e, Next(s, e), id);
  }

  lemma SameTask(s: State, e: Event, t: State, id: nat)
    requires id in s.tasks && Live(s.tasks[id]) && id in t.tasks && t.tasks[id] == s.tasks[id]
    requires !e.EvEnqueue? && !e.EvTake? && !e.EvFinish? && !e.EvCancel? && !e.EvResume?
    ensures Becomes(s, e, t, id)
  {
  }

  lemma LiveResume(s: State, x: nat, end: ResumeEnd, id: nat)
    requires Enabled(s, EvResume(x, end)) && id in s.tasks && Live(s.tasks[id])
    ensures Becomes(s, EvResume(x, end), Resume(s, x, end), id)
  {
    if x != id { ElsewhereResume(s, x, end, id); }
  }

  lemma LiveCancel(s: State, x: nat, id: nat)
    requires id in s.tasks && Live(s.tasks[id])
    ensures Becomes(s, EvCancel(x), Cancel(s, x), id)
  {
    if x != id { ElsewhereCancel(s, x, id); } else { CancelSets(s, id); }
  }

  lemma LiveEnqueue(s: State, x: nat, verdict: Verdict, id: nat)
    requires Shape(s) && x in s.pending && id in s.tasks && Live(s.tasks[id])
    ensures Becomes(s, EvEnqueue(x, verdict), Enqueue(s, x, verdict), id)
  {
    assert Good(s, id);
    if x != id {
      ElsewhereEnqueue(s, x, verdict, id);
    } else if verdict == Invalid {
      ReleaseTasks(Store(s.(pending := s.pending - {id}), id, Failed), id);
    }
  }

  lemma LiveTake(s: State, w: nat, id: nat)
    requires Shape(s) && s.queue != [] && w !in s.running && id in s.tasks && Live(s.tasks[id])
    ensures Becomes(s, EvTake(w), Take(s, w), id)
  {
    assert Good(s, id);
    assert s.queue[0] in s.queue;
    if s.queue[0] != id { ElsewhereTake(s, w, id); }
  }

  lemma LiveFinish(s: State, w: nat, outcome: Outcome, id: nat)
    requires Shape(s) && Enabled(s, EvFinish(w, outcome)) && id in s.tasks && Live(s.tasks[id])
    ensures Becomes(s, EvFinish(w, outcome), Finish(s, w, outcome), id)
  {
    assert s.running[w] in s.running.Values && Good(s, id);
    if s.running[w] != id {
      ElsewhereFinish(s, w, outcome, id);
    } else {
      ReleaseTasks(AfterPipeline(s, id, outcome), id);
    }
  }

  lemma CancelSets(s: State, id: nat)
    requires id in s.tasks && Live(s.tasks[id])
    ensures Cancel(s, id).tasks == s.tasks[id := Task(s.tasks[id].key, Cancelled)]
  {
  }

  /** What a restart makes of the repository. */
  lemma RestartIs(s: State, order: seq<nat>, plan: map<nat, Recovery>, id: nat)
    requires Enabled(s, EvRestart(order, plan)) && id in s.disk
    ensures var t, r := Restart(s, order, plan), PlanFor(plan, id);
            && t.tasks == t.disk && t.tasks.Keys == s.disk.Keys && t.tasks[id].key == s.disk[id].key
            && t.tasks[id].status == (if r == GiveUp then Failed
                                      else if r == Requeue && Live(s.disk[id]) then Queued else s.disk[id].status)
            && (id in t.queue <==> Live(s.disk[id]) && r == Requeue)
            && (id in t.resuming <==> Live(s.disk[id]) && r == ResumeLater)
            && (id in t.handles <==> Live(s.disk[id]) && r != GiveUp)
            && (id in t.handles ==> t.handles[id] == Handle(false, false))
            && t.active == |t.queue| && t.pending == {} && t.running == map[] && t.cache == map[]
  {
    RequeueIn(s.disk, plan, order);
  }

  /** Across a restart a live task fails exactly when recovery gives it up; it neither completes nor is cancelled. */
  lemma LiveRestartIff(s: State, order: seq<nat>, plan: map<nat, Recovery>, id: nat)
    requires Shape(s) && Enabled(s, EvRestart(order, plan)) && id in s.tasks && Live(s.tasks[id])
    ensures var t := Restart(s, order, plan);
            && id in t.tasks && (t.tasks[id].status == Failed <==> PlanFor(plan, id) == GiveUp)
            && t.tasks[id].status != Completed && t.tasks[id].status != Cancelled
  {
    assert Good(s, id);
    RestartIs(s, order, plan, id);
  }

  lemma {:induction false} RequeuedFrom(disk: map<nat, Task>, plan: map<nat, Recovery>, order: seq<nat>, j: nat)
    requires j < |RequeueList(disk, plan, order)|
    ensures RequeueList(disk, plan, order)[j] in order
  {
    var h := if Requeued(disk, plan, order[0]) then 1 else 0;
    if j >= h { RequeuedFrom(disk, plan, order[1..], j - h); }
  }

  /** Queued again in the order in which the repository is read. */
  lemma {:induction false} RequeuedInOrder(disk: map<nat, Task>, plan: map<nat, Recovery>, order: seq<nat>, i: nat, j: nat)
    requires i < j < |RequeueList(disk, plan, order)|
    ensures exists a, b :: 0 <= a < b < |order|
              && order[a] == RequeueList(disk, plan, order)[i] && order[b] == RequeueList(disk, plan, order)[j]
  {
    var q, rest := RequeueList(disk, plan, order), RequeueList(disk, plan, order[1..]);
    var h := if Requeued(disk, plan, order[0]) then 1 else 0;
    assert forall k :: h <= k < |q| ==> q[k] == rest[k - h];
    if i < h {
      RequeuedFrom(disk, plan, order[1..], j - h);
      var b :| 0 <= b < |order[1..]| && order[1..][b] == rest[j - h];
      assert order[0] == q[i] && order[b + 1] == q[j];
    } else {
      RequeuedInOrder(disk, plan, order[1..], i - h, j - h);
      var a, b :| 0 <= a < b < |order[1..]| && order[1..][a] == rest[i - h] && order[1..][b] == rest[j - h];
      assert order[a + 1] == q[i] && order[b + 1] == q[j];
    }
  }

  // ---------- the verdict of a validation ----------

  /** What the enqueue coroutine does: an invalid task fails in registry and repository and gives its slot back; a
      valid one is queued last; a cancelled one is left alone. */
  lemma EnqueueMeans(s: State, id: nat, verdict: Verdict)
    requires Shape(s) && id in s.pending
    ensures var t := Enqueue(s, id, verdict);
            && id in s.handles && t.pending == s.pending - {id} && t.running == s.running && t.resuming == s.resuming
            && (s.handles[id].cancelled ==> t == s.(pending := s.pending - {id}))
            && (!s.handles[id].cancelled ==> id in s.tasks && s.tasks[id].status == Created)
            && (!s.handles[id].cancelled && verdict == Invalid ==>
                  t.tasks == s.tasks[id := Task(s.tasks[id].key, Failed)] && t.disk == s.disk[id := Task(s.tasks[id].key, Failed)]
                  && t.queue == s.queue && t.handles == s.handles[id := Handle(false, true)]
                  && t.active == if s.active > 0 then s.active - 1 else 0)
            && (!s.handles[id].cancelled && verdict == Valid ==>
                  t.tasks == s.tasks[id := Task(s.tasks[id].key, Queued)] && t.disk == s.disk[id := Task(s.tasks[id].key, Queued)]
                  && t.queue == s.queue + [id] && t.handles == s.handles && t.active == s.active)
  {
    assert Good(s, id);
  }

  // ---------- registry and repository ----------

  /** The event makes a new task. */
  ghost predicate Registers(s: State, e: Event) {
    match e
    case EvSubmit(key, now) => Submit(s, key, now).1.Accepted?
    case EvRetryOntology(key, force, now) => RetryOntology(s, key, force, now).1.Accepted?
    case EvDirectCreate(key, now) => Create(s, key, now).1.Accepted?
    case _ => false
  }

  /** The object of the task is written to the repository, registered or not. */
  ghost predicate Saves(s: State, e: Event, id: nat) {
    || (OwnFinish(s, e, id) && e.outcome != StopsOnCancel)
    || (e.EvCheckpoint? && e.worker in s.running && s.running[e.worker] == id)
    || e == EvResumeSave(id)
    || (e.EvResume? && e.id == id && !e.end.BrokenOff?)
  }

  ghost predicate RegistryBecomes(s: State, e: Event, t: State, id: nat) {
    var dropped := e.EvExpire? && id in e.ids;
    && (id in t.tasks <==> (id in s.tasks && !dropped) || (id == s.nextId && Registers(s, e)))
    && (id in t.disk <==> (id in s.disk && !dropped) || (id == s.nextId && Registers(s, e))
                          || (Saves(s, e, id) && Object(s, id).Some?))
    && (dropped && id in s.tasks ==> Object(t, id) == Some(s.tasks[id]))
  }

  /** Which tasks the registry and the repository have after an event: ended tasks leave both together, and one whose
      object a coroutine still holds may come back to the repository alone. */
  lemma RegistryStepIff(s: State, e: Event, id: nat)
    requires Shape(s) && Enabled(s, e) && !e.EvRestart?
    ensures RegistryBecomes(s, e, Next(s, e), id)
  {
    assert Good(s, id);
    match e
    case EvSubmit(key, now) => RegistryCreate(s, key, now, id);
    case EvRetryOntology(key, _, now) => RegistryCreate(s, key, now, id);
    case EvDirectCreate(key, now) => RegistryCreate(s, key, now, id);
    case EvEnqueue(x, verdict) => assert Good(s, x); RegistryEnqueue(s, x, verdict, id);
    case EvTake(w) => assert Good(s, s.queue[0]); RegistryTake(s, w, id);
    case EvFinish(w, outcome) => assert Good(s, s.running[w]); RegistryFinish(s, w, outcome, id);
    case EvCancel(x) => CancelKeepsDisk(s, x); RegistryCancel(s, x, id);
    case EvResume(x, end) => RegistryResume(s, x, end, id);
    case _ => RegistryQuiet(s, e, id);
  }

  lemma RegistryQuiet(s: State, e: Event, id: nat)
    requires Enabled(s, e) && (e.EvCheckpoint? || e.EvExpire? || e.EvResumeSave?)
    ensures RegistryBecomes(s, e, Next(s, e), id)
  {
  }

  lemma RegistryCreate(s: State, key: string, now: nat, id: nat)
    ensures var (t, r) := Create(s, key, now);
            && (id in t.tasks <==> id in s.tasks || (id == s.nextId && r.Accepted?))
            && (id in t.disk <==> id in s.disk || (id == s.nextId && r.Accepted?))
  {
  }

  lemma RegistryStore(s: State, x: nat, status: Status, id: nat)
    ensures var t := Store(s, x, status);
            && (id in t.tasks <==> id in s.tasks)
            && (id in t.disk <==> id in s.disk || (id == x && Object(s, x).Some?))
  {
  }

  lemma RegistryEnqueue(s: State, x: nat, verdict: Verdict, id: nat)
    requires x in s.pending && Good(s, x)
    ensures RegistryBecomes(s, EvEnqueue(x, verdict), Enqueue(s, x, verdict), id)
  {
    var s1 := s.(pending := s.pending - {x});
    RegistryStore(s1, x, Failed, id);
    RegistryStore(s1, x, Queued, id);
    ReleaseKeeps(Store(s1, x, Failed), x);
  }

  lemma RegistryTake(s: State, w: nat, id: nat)
    requires s.queue != [] && Good(s, s.queue[0])
    ensures RegistryBecomes(s, EvTake(w), Take(s, w), id)
  {
    RegistryStore(s.(queue := s.queue[1..]), s.queue[0], Processing, id);
  }

  lemma RegistryFinish(s: State, w: nat, outcome: Outcome, id: nat)
    requires w in s.running && Good(s, s.running[w])
    ensures RegistryBecomes(s, EvFinish(w, outcome), Finish(s, w, outcome), id)
  {
    var x := s.running[w];
    match outcome {
      case Succeeds => RegistryStore(s, x, Completed, id);
      case Breaks => RegistryStore(s, x, Failed, id);
      case StopsOnCancel => RegistryStore(s, x, Cancelled, id);
    }
    ReleaseKeeps(AfterPipeline(s, x, outcome), x);
  }

  lemma RegistryCancel(s: State, x: nat, id: nat)
    ensures id in Cancel(s, x).tasks <==> id in s.tasks
  {
  }

  lemma RegistryResume(s: State, x: nat, end: ResumeEnd, id: nat)
    ensures RegistryBecomes(s, EvResume(x, end), Resume(s, x, end), id)
  {
    if end.Settled? { RegistryStore(s.(resuming := s.resuming - {x}), x, end.status, id); }
  }

  // ---------- handles ----------

  ghost predicate HandleBecomes(s: State, e: Event, t: State, id: nat)
    requires id in s.handles
  {
    var called := e == EvCancel(id) && id in s.tasks && Live(s.tasks[id]);
    && id in t.handles
    && (t.handles[id].cancelled <==> s.handles[id].cancelled || called)
    && (t.handles[id].released <==>
          s.handles[id].released || called || Judged(s, e, id, Invalid) || OwnFinish(s, e, id))
  }

  /** A handle is cancelled exactly by the cancellation of its live task, and released exactly by that, by an invalid
      validation, or by the end of the pipeline. */
  lemma HandleStepIff(s: State, e: Event, id: nat)
    requires Shape(s) && Enabled(s, e) && !e.EvRestart? && id in s.handles
    ensures HandleBecomes(s, e, Next(s, e), id)
  {
    assert Good(s, id);
    match e
    case EvEnqueue(x, verdict) => HandleEnqueue(s, x, verdict, id);
    case EvTake(w) => SameHandle(s, e, Next(s, e), id);
    case EvFinish(w, outcome) => HandleFinish(s, w, outcome, id);
    case EvCancel(x) => HandleCancel(s, x, id);
    case EvResume(x, end) => HandleResume(s, x, end, id);
    case EvCheckpoint(_) => SameHandle(s, e, Next(s, e), id);
    case EvExpire(_) => SameHandle(s, e, Next(s, e), id);
    case EvResumeSave(_) => SameHandle(s, e, Next(s, e), id);
    case EvSubmit(key, now) => HandleCreate(s, key, now, id); SameHandle(s, e, Next(s, e), id);
    case EvRetryOntology(key, _, now) => HandleCreate(s, key, now, id); SameHandle(s, e, Next(s, e), id);
    case EvDirectCreate(key, now) => HandleCreate(s, key, now, id); SameHandle(s, e, Next(s, e), id);
  }

  lemma SameHandle(s: State, e: Event, t: State, id: nat)
    requires id in s.handles && id in t.handles && t.handles[id] == s.handles[id]
    requires !e.EvEnqueue? && !e.EvFinish? && !e.EvCancel?
    ensures HandleBecomes(s, e, t, id)
  {
  }

  lemma HandleEnqueue(s: State, x: nat, verdict: Verdict, id: nat)
    requires id in s.handles
    ensures HandleBecomes(s, EvEnqueue(x, verdict), Enqueue(s, x, verdict), id)
  {
    if x != id { ElsewhereEnqueue(s, x, verdict, id); }
  }

  lemma HandleFinish(s: State, w: nat, outcome: Outcome, id: nat)
    requires w in s.running && OneWorkerEach(s.running) && id in s.handles
    ensures HandleBecomes(s, EvFinish(w, outcome), Finish(s, w, outcome), id)
  {
    if s.running[w] != id { ElsewhereFinish(s, w, outcome, id); }
  }

  lemma HandleCancel(s: State, x: nat, id: nat)
    requires id in s.handles
    ensures HandleBecomes(s, EvCancel(x), Cancel(s, x), id)
  {
    if x != id { ElsewhereCancel(s, x, id); }
  }

  lemma HandleResume(s: State, x: nat, end: ResumeEnd, id: nat)
    requires id in s.handles
    ensures HandleBecomes(s, EvResume(x, end), Resume(s, x, end), id)
  {
  }

  lemma HandleCreate(s: State, key: string, now: nat, id: nat)
    requires id in s.handles && id != s.nextId
    ensures id in Create(s, key, now).0.handles && Create(s, key, now).0.handles[id] == s.handles[id]
  {
  }

  // ---------- first come, first served ----------

  /** What joins the queue in an event, and what leaves it. */
  ghost function Joins(s: State, e: Event): seq<nat> {
    if e.EvEnqueue? && Judged(s, e, e.id, Valid) then [e.id] else []
  }

  ghost function Leaves(s: State, e: Event): seq<nat> {
    if e.EvTake? && s.queue != [] then [s.queue[0]] else []
  }

  ghost predicate PlacesBecome(s: State, e: Event, t: State) {
    && s.queue + Joins(s, e) == Leaves(s, e) + t.queue
    && t.running == match e
                    case EvTake(w) => if s.queue != [] && s.queue[0] in s.tasks then s.running[w := s.queue[0]] else s.running
                    case EvFinish(w, _) => s.running - {w}
                    case _ => s.running
  }

  /** A worker that takes a registered task runs it; a task that is no longer registered is dropped. */
  lemma PlacesStep(s: State, e: Event)
    requires Enabled(s, e) && !e.EvRestart?
    ensures PlacesBecome(s, e, Next(s, e))
  {
    match e
    case EvEnqueue(x, verdict) => PlacesEnqueue(s, x, verdict);
    case EvTake(w) => PlacesTake(s, w);
    case EvFinish(w, outcome) => PlacesFinish(s, w, outcome);
    case EvSubmit(key, now) => PlacesCreate(s, key, now); SamePlaces(s, e, Next(s, e));
    case EvRetryOntology(key, _, now) => PlacesCreate(s, key, now); SamePlaces(s, e, Next(s, e));
    case EvDirectCreate(key, now) => PlacesCreate(s, key, now); SamePlaces(s, e, Next(s, e));
    case _ => PlacesQuiet(s, e);
  }

  lemma PlacesQuiet(s: State, e: Event)
    requires Enabled(s, e)
    requires e.EvCancel? || e.EvResume? || e.EvCheckpoint? || e.EvExpire? || e.EvResumeSave?
    ensures PlacesBecome(s, e, Next(s, e))
  {
    QuietQueue(s, e);
    SamePlaces(s, e, Next(s, e));
  }

  lemma QuietQueue(s: State, e: Event)
    requires Enabled(s, e)
    requires e.EvCancel? || e.EvResume? || e.EvCheckpoint? || e.EvExpire? || e.EvResumeSave?
    ensures Next(s, e).queue == s.queue && Next(s, e).running == s.running
  {
    if e.EvCancel? { CancelQueue(s, e.id); }
    if e.EvResume? { ResumeQueue(s, e.id, e.end); }
  }

  lemma CancelQueue(s: State, id: nat)
    ensures Cancel(s, id).queue == s.queue && Cancel(s, id).running == s.running
  {
  }

  lemma ResumeQueue(s: State, id: nat, end: ResumeEnd)
    ensures Resume(s, id, end).queue == s.queue && Resume(s, id, end).running == s.running
  {
  }

  lemma PlacesCreate(s: State, key: string, now: nat)
    ensures Create(s, key, now).0.queue == s.queue && Create(s, key, now).0.running == s.running
  {
  }

  lemma SamePlaces(s: State, e: Event, t: State)
    requires t.queue == s.queue && t.running == s.running && !e.EvEnqueue? && !e.EvTake? && !e.EvFinish?
    ensures PlacesBecome(s, e, t)
  {
    assert s.queue + [] == s.queue && [] + s.queue == s.queue;
  }

  lemma PlacesEnqueue(s: State, x: nat, verdict: Verdict)
    ensures PlacesBecome(s, EvEnqueue(x, verdict), Enqueue(s, x, verdict))
  {
    assert s.queue + [] == s.queue && [] + Enqueue(s, x, verdict).queue == Enqueue(s, x, verdict).queue;
  }

  lemma PlacesTake(s: State, w: nat)
    requires s.queue != []
    ensures PlacesBecome(s, EvTake(w), Take(s, w))
  {
    assert s.queue == [s.queue[0]] + s.queue[1..] && s.queue + [] == s.queue;
  }

  lemma PlacesFinish(s: State, w: nat, outcome: Outcome)
    requires w in s.running
    ensures PlacesBecome(s, EvFinish(w, outcome), Finish(s, w, outcome))
  {
    var id := s.running[w];
    assert AfterPipeline(s, id, outcome).queue == s.queue && AfterPipeline(s, id, outcome).running == s.running;
    assert s.queue + [] == s.queue && [] + s.queue == s.queue;
  }

  ghost function AllJoin(s: State, es: seq<Event>): seq<nat>
    decreases |es|
  {
    if es == [] || !Enabled(s, es[0]) then [] else Joins(s, es[0]) + AllJoin(Next(s, es[0]), es[1..])
  }

  ghost function AllLeave(s: State, es: seq<Event>): seq<nat>
    decreases |es|
  {
    if es == [] || !Enabled(s, es[0]) then [] else Leaves(s, es[0]) + AllLeave(Next(s, es[0]), es[1..])
  }

  /** Over any run without a restart the tasks leave the queue in the order in which they joined it, none twice and
      none passed over. */
  lemma {:induction false} FirstComeFirstServed(s: State, es: seq<Event>, t: State)
    requires Reaches(s, es, t) && forall i :: 0 <= i < |es| ==> !es[i].EvRestart?
    ensures s.queue + AllJoin(s, es) == AllLeave(s, es) + t.queue
    decreases |es|
  {
    if es != [] {
      var e, s1 := es[0], Next(s, es[0]);
      PlacesStep(s, e);
      FirstComeFirstServed(s1, es[1..], t);
      Associate(s.queue, Joins(s, e), AllJoin(s1, es[1..]));
      Associate(Leaves(s, e), s1.queue, AllJoin(s1, es[1..]));
      Associate(Leaves(s, e), AllLeave(s1, es[1..]), t.queue);
    }
  }

  // ---------- the repository ----------

  /** Registered tasks whose copy in the repository is not up to date. */
  ghost function Stale(s: State): set<nat> {
    set id | id in s.tasks && (id !in s.disk || s.disk[id] != s.tasks[id])
  }

  /** The stale tasks are those in u, and those that were stale before have not changed. */
  ghost predicate StaleAre(s: State, t: State, u: set<nat>) {
    && Stale(t) == u
    && forall id :: id in Stale(s) && id in u && id in s.disk ==>
         id in t.tasks && id in t.disk && t.tasks[id] == s.tasks[id] && t.disk[id] == s.disk[id]
  }

  lemma StaleSave(s: State, id: nat)
    ensures StaleAre(s, Save(s, id), Stale(s) - {id})
  {
  }

  lemma StaleStore(s: State, id: nat, status: Status)
    ensures StaleAre(s, Store(s, id, status), Stale(s) - {id})
  {
  }

  lemma StaleSame(s: State, t: State)
    requires t.tasks == s.tasks && t.disk == s.disk
    ensures StaleAre(s, t, Stale(s)) && Stale(t) == Stale(s)
  {
  }

  lemma StaleThen(s: State, t: State, u: State, a: set<nat>)
    requires StaleAre(s, t, a) && u.tasks == t.tasks && u.disk == t.disk
    ensures StaleAre(s, u, a)
  {
    StaleSame(t, u);
  }

  lemma ReleaseKeeps(s: State, id: nat)
    ensures Release(s, id).tasks == s.tasks && Release(s, id).disk == s.disk
  {
  }

  lemma StaleTransition(s: State, id: nat, target: Status)
    requires Booked(s, id)
    ensures StaleAre(s, Transition(s, id, target), Stale(s))
  {
    StaleStore(s, id, target);
    if Object(s, id).Some? && Allowed(Object(s, id).value.status, target) {
      assert Stale(s) - {id} == Stale(s);
    } else {
      StaleSame(s, s);
    }
  }

  lemma StaleEnqueue(s: State, id: nat, verdict: Verdict)
    requires id in s.pending && Good(s, id)
    ensures StaleAre(s, Enqueue(s, id, verdict), Stale(s))
  {
    var s1 := s.(pending := s.pending - {id});
    StaleSame(s, s1);
    if !s.handles[id].cancelled && verdict == Invalid {
      StaleStore(s1, id, Failed);
      assert Stale(s1) - {id} == Stale(s);
      ReleaseKeeps(Store(s1, id, Failed), id);
      StaleThen(s1, Store(s1, id, Failed), Enqueue(s, id, verdict), Stale(s));
    } else if !s.handles[id].cancelled {
      StaleTransition(s1, id, Queued);
      StaleThen(s1, Transition(s1, id, Queued), Enqueue(s, id, verdict), Stale(s));
    }
  }

  lemma StaleTake(s: State, w: nat)
    requires s.queue != [] && Booked(s, s.queue[0])
    ensures StaleAre(s, Take(s, w), Stale(s))
  {
    var id, s1 := s.queue[0], s.(queue := s.queue[1..]);
    StaleSame(s, s1);
    if id in s.tasks {
      StaleTransition(s1, id, Processing);
      StaleThen(s1, Transition(s1, id, Processing), Take(s, w), Stale(s));
    }
  }

  lemma StaleFinish(s: State, w: nat, outcome: Outcome)
    requires w in s.running && Booked(s, s.running[w])
    ensures StaleAre(s, Finish(s, w, outcome), LacksAfter(s, EvFinish(w, outcome), Stale(s)))
  {
    var id := s.running[w];
    var s1 := AfterPipeline(s, id, outcome);
    match outcome {
      case Succeeds => StaleStore(s, id, Completed);
      case Breaks => StaleStore(s, id, Failed);
      case StopsOnCancel => StaleTransition(s, id, Cancelled);
    }
    ReleaseKeeps(s1, id);
    StaleThen(s, s1, Finish(s, w, outcome), LacksAfter(s, EvFinish(w, outcome), Stale(s)));
  }

  lemma StaleCancel(s: State, id: nat)
    requires Booked(s, id)
    ensures StaleAre(s, Cancel(s, id), LacksAfter(s, EvCancel(id), Stale(s)))
  {
    if id in s.tasks && Live(s.tasks[id]) {
      CancelSets(s, id);
      CancelKeepsDisk(s, id);
    } else {
      StaleSame(s, s);
    }
  }

  lemma CancelKeepsDisk(s: State, id: nat)
    ensures Cancel(s, id).disk == s.disk
  {
  }

  lemma StaleResume(s: State, id: nat, end: ResumeEnd)
    ensures StaleAre(s, Resume(s, id, end), LacksAfter(s, EvResume(id, end), Stale(s)))
  {
    var s1 := s.(resuming := s.resuming - {id});
    StaleSame(s, s1);
    match end {
      case Settled(status) => StaleStore(s1, id, status);
      case StillPending => StaleSave(s1, id);
      case BrokenOff =>
    }
  }

  lemma StaleCreate(s: State, key: string, now: nat)
    requires Booked(s, s.nextId)
    ensures StaleAre(s, Create(s, key, now).0, Stale(s))
  {
  }

  /** Which copies are out of date after an event: the cancelled task's is, and whatever saves the object renews it. */
  lemma StaleStep(s: State, e: Event)
    requires Shape(s) && Enabled(s, e)
    ensures StaleAre(s, Next(s, e), LacksAfter(s, e, Stale(s)))
  {
    match e
    case EvSubmit(key, now) => assert Good(s, s.nextId); StaleCreate(s, key, now);
    case EvRetryOntology(key, _, now) => assert Good(s, s.nextId); StaleCreate(s, key, now);
    case EvDirectCreate(key, now) => assert Good(s, s.nextId); StaleCreate(s, key, now);
    case EvEnqueue(id, verdict) => assert Good(s, id); StaleEnqueue(s, id, verdict);
    case EvTake(w) => assert Good(s, s.queue[0]); StaleTake(s, w);
    case EvFinish(w, outcome) => assert Good(s, s.running[w]); StaleFinish(s, w, outcome);
    case EvCheckpoint(w) => StaleSave(s, s.running[w]);
    case EvCancel(id) => assert Good(s, id); StaleCancel(s, id);
    case EvExpire(ids) =>
    case EvRestart(order, plan) =>
    case EvResumeSave(id) => StaleSave(s, id);
    case EvResume(id, end) => StaleResume(s, id, end);
  }

  /** Every copy that is out of date is that of a cancelled task and still alive. */
  ghost predicate OnlyCancelsMissed(s: State) {
    forall id :: id in Stale(s) ==> id in s.disk && Live(s.disk[id]) && s.tasks[id] == Task(s.disk[id].key, Cancelled)
  }

  lemma CancelsMissedStep(s: State, e: Event)
    requires Shape(s) && Enabled(s, e) && OnlyCancelsMissed(s)
    ensures OnlyCancelsMissed(Next(s, e))
  {
    var t := Next(s, e);
    StaleStep(s, e);
    if e.EvCancel? {
      assert Good(s, e.id);
      CancelKeepsDisk(s, e.id);
      if e.id in s.tasks && Live(s.tasks[e.id]) { CancelSets(s, e.id); }
    }
  }

  /** In every run of a fresh engine the repository has an up-to-date copy of every task but of some cancelled ones,
      and of these it has the live task that was cancelled. */
  lemma {:induction false} OnlyCancelsAreMissed(s: State, es: seq<Event>, t: State)
    requires Shape(s) && OnlyCancelsMissed(s) && Reaches(s, es, t)
    ensures OnlyCancelsMissed(t)
    decreases |es|
  {
    if es != [] {
      ShapeStep(s, es[0]);
      CancelsMissedStep(s, es[0]);
      OnlyCancelsAreMissed(Next(s, es[0]), es[1..], t);
    }
  }

  lemma FreshMissesNothing(capacity: nat)
    ensures Shape(Initial(capacity)) && OnlyCancelsMissed(Initial(capacity))
  {
    ShapeInitial(capacity);
  }
}
