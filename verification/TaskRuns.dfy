/** Safety of the task engine over whole runs. */
module TaskRuns {
  import opened Options
  import opened TaskStates
  import opened TaskInvariants

  lemma {:induction false} RunShape(s: State, es: seq<Event>, t: State)
    requires Shape(s) && Reaches(s, es, t)
    ensures Shape(t)
    decreases |es|
  {
    if es != [] {
      ShapeStep(s, es[0]);
      RunShape(Next(s, es[0]), es[1..], t);
    }
  }

  // ---------- guards ----------

  /** Every state of the run has the property. */
  ghost predicate Always(s: State, es: seq<Event>, p: State -> bool)
    decreases |es|
  {
    p(s) && (es != [] ==> Enabled(s, es[0]) && Always(Next(s, es[0]), es[1..], p))
  }

  /** Every event of the run meets the guard in the state where it happens. */
  ghost predicate Guarded(s: State, es: seq<Event>, g: (State, Event) -> bool)
    decreases |es|
  {
    es != [] ==> Enabled(s, es[0]) && g(s, es[0]) && Guarded(Next(s, es[0]), es[1..], g)
  }

  /** The guard tells exactly whether an event keeps the property. */
  ghost predicate Decides(g: (State, Event) -> bool, p: State -> bool) {
    forall s, e :: Shape(s) && p(s) && Enabled(s, e) ==> (p(Next(s, e)) <==> g(s, e))
  }

  /** A property holds throughout a run exactly when every event of the run meets its guard. */
  lemma {:induction false} AlwaysIffGuarded(s: State, es: seq<Event>, t: State, g: (State, Event) -> bool, p: State -> bool)
    requires Shape(s) && p(s) && Reaches(s, es, t) && Decides(g, p)
    ensures Always(s, es, p) <==> Guarded(s, es, g)
    ensures Guarded(s, es, g) ==> p(t)
    decreases |es|
  {
    if es != [] {
      var u := Next(s, es[0]);
      ShapeStep(s, es[0]);
      assert p(u) <==> g(s, es[0]);
      if p(u) {
        AlwaysIffGuarded(u, es[1..], t, g, p);
      }
    }
  }

  // ---------- one live task per idempotency key ----------

  ghost predicate SameKey(tasks: map<nat, Task>, a: nat, b: nat) {
    a in tasks && b in tasks && a != b && tasks[a].key == tasks[b].key && tasks[a].key != ""
  }

  ghost predicate UniqueKeys(s: State) {
    forall a, b :: SameKey(s.tasks, a, b) ==> !(Live(s.tasks[a]) && Live(s.tasks[b]))
  }

  /** Ended tasks that the repository still has alive. */
  ghost function Unsaved(s: State): set<nat> {
    set id | id in s.tasks && id in s.disk && !Live(s.tasks[id]) && Live(s.disk[id])
  }

  /** Every end of a task has reached the repository. */
  ghost predicate EndsSaved(s: State) { Unsaved(s) == {} }

  /** A recovered task that is neither ended nor queued has its resume coroutine. */
  ghost predicate RecoveryAttended(s: State) {
    forall id :: id in s.tasks && Live(s.tasks[id]) && id in s.uncounted ==> id in s.resuming
  }

  /** A resume coroutine leaves its task alive without a verdict. */
  ghost predicate Strands(s: State, e: Event) {
    e.EvResume? && !e.end.Settled? && e.id in s.tasks && Live(s.tasks[e.id])
  }

  /** A live task nobody carries on. */
  ghost predicate Stranded(s: State, id: nat) {
    id in s.tasks && Live(s.tasks[id]) && !Attended(s, id) && id !in s.resuming
  }

  ghost predicate KeepsStranded(s: State, t: State, id: nat) {
    Stranded(s, id) ==> Stranded(t, id) && t.tasks[id] == s.tasks[id]
  }

  /** No task is made or revived, and no key is changed. */
  ghost predicate NothingNew(s: State, t: State) {
    && (forall id :: id in t.tasks ==>
          id in s.tasks && t.tasks[id].key == s.tasks[id].key && (Live(t.tasks[id]) ==> Live(s.tasks[id])))
    && t.nextId == s.nextId && t.active <= s.active && t.cache == s.cache
  }

  /** At most one task is made, under the next id, within the capacity. */
  ghost predicate AtMostOneNew(s: State, t: State) {
    && (forall id :: id in s.tasks ==> id in t.tasks && t.tasks[id] == s.tasks[id])
    && (forall id :: id in t.tasks && id !in s.tasks ==> id == s.nextId)
    && t.nextId >= s.nextId && (s.active <= s.capacity ==> t.active <= t.capacity)
  }

  ghost predicate Creates(e: Event) { e.EvSubmit? || e.EvRetryOntology? || e.EvDirectCreate? }

  /** What one event does to the registry, to saved ends, to recovery and to stranded tasks. */
  ghost predicate Keeps(s: State, e: Event, t: State) {
    && (if Creates(e) then AtMostOneNew(s, t) else NothingNew(s, t))
    && t.capacity == s.capacity
    && (RecoveryAttended(s) ==> (RecoveryAttended(t) <==> !Strands(s, e)))
    && (forall x: nat :: e != EvCancel(x) ==> KeepsStranded(s, t, x))
  }

  lemma KeepsSame(s: State, e: Event)
    requires Creates(e)
    ensures Keeps(s, e, s)
  {
  }

  lemma KeepsRegister(s: State, e: Event, key: string, now: nat)
    requires Shape(s) && Creates(e) && s.active < s.capacity
    ensures Keeps(s, e, Register(s, key, now))
  {
    assert Good(s, s.nextId);
  }

  lemma KeepsCreate(s: State, e: Event, key: string, now: nat)
    requires Shape(s) && Creates(e)
    ensures Keeps(s, e, Create(s, key, now).0)
  {
    KeepsSame(s, e);
    if key == "" {
      if s.active < s.capacity { KeepsRegister(s, e, key, now); }
    } else {
      KeepsUncached(s, e, key, now);
    }
  }

  /** The creation behind the cache check, which drops the entry. */
  lemma KeepsUncached(s: State, e: Event, key: string, now: nat)
    requires Shape(s) && Creates(e)
    ensures var s1 := s.(cache := s.cache - {key});
            Keeps(s, e, s1) && (s.active < s.capacity ==> Keeps(s, e, Register(s1, key, now)))
  {
    var s1 := s.(cache := s.cache - {key});
    forall id: nat ensures Good(s1, id) { assert Good(s, id); }
    if s.active < s.capacity {
      KeepsRegister(s1, e, key, now);
    }
  }

  /** An event about one task, which is not left alive for want of a resume coroutine. */
  lemma KeepsOne(s: State, e: Event, t: State, id: nat)
    requires !Creates(e) && !e.EvResume? && NothingNew(s, t) && t.capacity == s.capacity
    requires forall x: nat :: x != id ==> SamePlace(s, t, x)
    requires id !in s.uncounted && id !in t.uncounted && Attended(s, id)
    ensures Keeps(s, e, t)
  {
    forall x: nat ensures KeepsStranded(s, t, x) {
      if x != id { assert SamePlace(s, t, x); }
    }
    forall x | x in t.uncounted && x in t.tasks && Live(t.tasks[x])
      ensures x in s.uncounted && x in s.tasks && Live(s.tasks[x]) && (x in t.resuming <==> x in s.resuming)
    {
      assert SamePlace(s, t, x);
    }
    forall x | x in s.uncounted && x in s.tasks && Live(s.tasks[x])
      ensures x in t.uncounted && x in t.tasks && Live(t.tasks[x])
    {
      assert SamePlace(s, t, x);
    }
  }

  lemma EnqueueNothingNew(s: State, id: nat, verdict: Verdict)
    requires id in s.pending && Good(s, id)
    ensures NothingNew(s, Enqueue(s, id, verdict)) && Enqueue(s, id, verdict).capacity == s.capacity
    ensures Enqueue(s, id, verdict).uncounted == s.uncounted
  {
  }

  lemma KeepsEnqueue(s: State, id: nat, verdict: Verdict)
    requires Shape(s) && id in s.pending
    ensures Keeps(s, EvEnqueue(id, verdict), Enqueue(s, id, verdict))
  {
    var t := Enqueue(s, id, verdict);
    assert Good(s, id);
    forall x: nat | x != id ensures SamePlace(s, t, x) { ElsewhereEnqueue(s, id, verdict, x); }
    EnqueueNothingNew(s, id, verdict);
    KeepsOne(s, EvEnqueue(id, verdict), t, id);
  }

  lemma KeepsTake(s: State, w: nat)
    requires Shape(s) && s.queue != [] && w !in s.running
    ensures Keeps(s, EvTake(w), Take(s, w))
  {
    var t, id := Take(s, w), s.queue[0];
    assert id in s.queue && Good(s, id);
    forall x: nat | x != id ensures SamePlace(s, t, x) { ElsewhereTake(s, w, x); }
    KeepsOne(s, EvTake(w), t, id);
  }

  lemma KeepsFinish(s: State, w: nat, outcome: Outcome)
    requires Shape(s) && Enabled(s, EvFinish(w, outcome))
    ensures Keeps(s, EvFinish(w, outcome), Finish(s, w, outcome))
  {
    var t, id := Finish(s, w, outcome), s.running[w];
    assert id in s.running.Values && Good(s, id);
    forall x: nat | x != id ensures SamePlace(s, t, x) { ElsewhereFinish(s, w, outcome, x); }
    FinishNothingNew(s, w, outcome);
    KeepsOne(s, EvFinish(w, outcome), t, id);
  }

  lemma FinishNothingNew(s: State, w: nat, outcome: Outcome)
    requires w in s.running && Good(s, s.running[w])
    ensures NothingNew(s, Finish(s, w, outcome)) && Finish(s, w, outcome).capacity == s.capacity
    ensures Finish(s, w, outcome).uncounted == s.uncounted
  {
    var id := s.running[w];
    PipelineNothingNew(s, id, outcome);
    ReleaseNothingNew(AfterPipeline(s, id, outcome), id);
  }

  lemma PipelineNothingNew(s: State, id: nat, outcome: Outcome)
    ensures var t := AfterPipeline(s, id, outcome);
            NothingNew(s, t) && t.capacity == s.capacity && t.uncounted == s.uncounted
  {
    match outcome {
      case Succeeds => StoreNothingNew(s, id, Completed);
      case Breaks => StoreNothingNew(s, id, Failed);
      case StopsOnCancel => StoreNothingNew(s, id, Cancelled);
    }
  }

  lemma StoreNothingNew(s: State, id: nat, status: Status)
    requires Terminal(status)
    ensures var t := Store(s, id, status); NothingNew(s, t) && t.capacity == s.capacity && t.uncounted == s.uncounted
  {
  }

  lemma ReleaseNothingNew(s: State, id: nat)
    ensures var t := Release(s, id); NothingNew(s, t) && t.capacity == s.capacity && t.uncounted == s.uncounted
  {
  }

  lemma KeepsSave(s: State, e: Event, id: nat)
    requires Shape(s) && (e.EvCheckpoint? || e.EvResumeSave?)
    ensures Keeps(s, e, Save(s, id))
  {
  }

  lemma KeepsCancel(s: State, id: nat)
    requires Shape(s)
    ensures Keeps(s, EvCancel(id), Cancel(s, id))
  {
    var t := Cancel(s, id);
    forall x: nat | x != id ensures SamePlace(s, t, x) { ElsewhereCancel(s, id, x); }
    CancelNothingNew(s, id);
  }

  lemma CancelNothingNew(s: State, id: nat)
    ensures NothingNew(s, Cancel(s, id)) && Cancel(s, id).capacity == s.capacity
    ensures Cancel(s, id).uncounted == s.uncounted && Cancel(s, id).resuming == s.resuming
  {
  }

  lemma KeepsExpire(s: State, ids: set<nat>)
    requires Shape(s) && Enabled(s, EvExpire(ids))
    ensures Keeps(s, EvExpire(ids), Expire(s, ids))
  {
  }

  lemma KeepsResume(s: State, id: nat, end: ResumeEnd)
    requires Shape(s) && Enabled(s, EvResume(id, end))
    ensures Keeps(s, EvResume(id, end), Resume(s, id, end))
  {
    ResumeNothingNew(s, id, end);
    if RecoveryAttended(s) { ResumeRecovery(s, id, end); }
    forall x: nat ensures KeepsStranded(s, Resume(s, id, end), x) {
      ResumeStranded(s, id, end, x);
    }
  }

  lemma ResumeStranded(s: State, id: nat, end: ResumeEnd, x: nat)
    requires Enabled(s, EvResume(id, end))
    ensures KeepsStranded(s, Resume(s, id, end), x)
  {
    if x != id { ElsewhereResume(s, id, end, x); }
  }

  /** All others are attended as before; the task itself is not resumed any more. */
  lemma ResumeRecovery(s: State, id: nat, end: ResumeEnd)
    requires Shape(s) && Enabled(s, EvResume(id, end)) && RecoveryAttended(s)
    ensures RecoveryAttended(Resume(s, id, end)) <==> !Strands(s, EvResume(id, end))
  {
    var t := Resume(s, id, end);
    assert Good(s, id);
    OwnResume(s, id, end);
    forall x | x in t.tasks && Live(t.tasks[x]) && x in t.uncounted && x != id ensures x in t.resuming {
      ElsewhereResume(s, id, end, x);
    }
  }

  lemma OwnResume(s: State, id: nat, end: ResumeEnd)
    requires Enabled(s, EvResume(id, end)) && id in s.uncounted
    ensures var t := Resume(s, id, end);
            && id !in t.resuming && id in t.uncounted
            && (id in t.tasks && Live(t.tasks[id]) <==> Strands(s, EvResume(id, end)))
  {
  }

  lemma ResumeNothingNew(s: State, id: nat, end: ResumeEnd)
    requires end.Settled? ==> Terminal(end.status)
    ensures NothingNew(s, Resume(s, id, end)) && Resume(s, id, end).capacity == s.capacity
  {
  }

  lemma KeepsStep(s: State, e: Event)
    requires Shape(s) && Enabled(s, e) && !e.EvRestart?
    ensures Keeps(s, e, Next(s, e))
  {
    if Creates(e) {
      KeepsSame(s, e);
      KeepsCreate(s, e, e.key, e.now);
    } else {
      match e {
        case EvEnqueue(id, verdict) => KeepsEnqueue(s, id, verdict);
        case EvTake(w) => KeepsTake(s, w);
        case EvFinish(w, outcome) => KeepsFinish(s, w, outcome);
        case EvCheckpoint(w) => KeepsSave(s, e, s.running[w]);
        case EvResumeSave(id) => KeepsSave(s, e, id);
        case EvCancel(id) => KeepsCancel(s, id);
        case EvExpire(ids) => KeepsExpire(s, ids);
        case EvResume(id, end) => KeepsResume(s, id, end);
      }
    }
  }

  /** After the scan of the registry the cache has nothing left to say. */
  lemma CacheAddsNothing(s: State, key: string, now: nat)
    requires Shape(s) && key != "" && FirstLive(s, s.order, key).None?
    ensures CachedTask(s, key, now).None?
  {
    if key in s.cache && s.cache[key].1 in s.tasks {
      assert Good(s, s.cache[key].1);
    }
  }

  lemma UniqueAfterRegister(s: State, key: string, now: nat)
    requires Shape(s) && UniqueKeys(s)
    requires forall id :: id in s.tasks && s.tasks[id].key == key && key != "" ==> !Live(s.tasks[id])
    ensures UniqueKeys(Register(s, key, now))
  {
    var t := Register(s, key, now);
    assert Good(s, s.nextId);
    forall a, b | SameKey(t.tasks, a, b) ensures !(Live(t.tasks[a]) && Live(t.tasks[b])) {
      if a != s.nextId && b != s.nextId { assert SameKey(s.tasks, a, b); }
    }
  }

  lemma NoneLiveInRegistry(s: State, key: string)
    requires Shape(s) && FirstLive(s, s.order, key).None?
    ensures forall id :: id in s.tasks && s.tasks[id].key == key ==> !Live(s.tasks[id])
  {
    forall id | id in s.tasks && s.tasks[id].key == key ensures !Live(s.tasks[id]) { assert Good(s, id); }
  }

  lemma UniqueSubmit(s: State, key: string, now: nat)
    requires Shape(s) && UniqueKeys(s)
    ensures UniqueKeys(Submit(s, key, now).0)
  {
    if key == "" {
      UniqueAfterRegister(s, key, now);
    } else if FirstLive(s, s.order, key).None? {
      NoneLiveInRegistry(s, key);
      CacheAddsNothing(s, key, now);
      var s1 := s.(cache := s.cache - {key});
      forall id: nat ensures Good(s1, id) { assert Good(s, id); }
      UniqueAfterRegister(s1, key, now);
    }
  }

  lemma UniqueRetry(s: State, key: string, force: bool, now: nat)
    requires Shape(s) && UniqueKeys(s)
    ensures UniqueKeys(RetryOntology(s, key, force, now).0)
  {
    if FirstSettled(s, s.order, key, force).None? {
      assert FirstLive(s, s.order, key).None?;
      UniqueSubmit(s, key, now);
    }
  }

  /** A direct creation keeps one live task per key exactly when it has no key, is answered from the cache, finds
      no slot, or no task of the key is alive. */
  lemma DirectCreateIff(s: State, key: string, now: nat)
    requires Shape(s) && UniqueKeys(s)
    ensures UniqueKeys(Create(s, key, now).0) <==>
      key == "" || CachedTask(s, key, now).Some? || s.active >= s.capacity || FirstLive(s, s.order, key).None?
  {
    if key == "" || FirstLive(s, s.order, key).None? {
      UniqueSubmit(s, key, now);
    } else if CachedTask(s, key, now).None? && s.active < s.capacity {
      var id, t := FirstLive(s, s.order, key).value, Create(s, key, now).0;
      assert Good(s, s.nextId) && Good(s, id);
      assert SameKey(t.tasks, id, s.nextId) && Live(t.tasks[id]) && Live(t.tasks[s.nextId]);
    }
  }

  /** A restart keeps one live task per key exactly when the repository has one: what counts is the
      persisted status of the tasks recovery does not give up. */
  ghost predicate OneSavedPerKey(disk: map<nat, Task>, plan: map<nat, Recovery>) {
    forall a, b :: SameKey(disk, a, b) && PlanFor(plan, a) != GiveUp && PlanFor(plan, b) != GiveUp ==>
      !(Live(disk[a]) && Live(disk[b]))
  }

  lemma RestartUniqueIff(s: State, order: seq<nat>, plan: map<nat, Recovery>)
    ensures UniqueKeys(Restart(s, order, plan)) <==> OneSavedPerKey(s.disk, plan)
  {
    var t := Restart(s, order, plan);
    assert forall id :: id in s.disk ==>
      t.tasks[id].key == s.disk[id].key && (Live(t.tasks[id]) <==> Live(s.disk[id]) && PlanFor(plan, id) != GiveUp);
    assert forall a, b :: SameKey(s.disk, a, b) <==> SameKey(t.tasks, a, b);
  }

  /** The events that keep one live task per key. */
  ghost predicate KeyGuard(s: State, e: Event) {
    match e
    case EvDirectCreate(key, now) =>
      key == "" || CachedTask(s, key, now).Some? || s.active >= s.capacity || FirstLive(s, s.order, key).None?
    case EvRestart(_, plan) => OneSavedPerKey(s.disk, plan)
    case _ => true
  }

  lemma UniqueStepIff(s: State, e: Event)
    requires Shape(s) && UniqueKeys(s) && Enabled(s, e)
    ensures UniqueKeys(Next(s, e)) <==> KeyGuard(s, e)
  {
    match e {
      case EvDirectCreate(key, now) => DirectCreateIff(s, key, now);
      case EvRestart(order, plan) => RestartUniqueIff(s, order, plan);
      case EvSubmit(key, now) => UniqueSubmit(s, key, now);
      case EvRetryOntology(key, force, now) => UniqueRetry(s, key, force, now);
      case _ =>
        var t := Next(s, e);
        KeepsStep(s, e);
        forall a, b | SameKey(t.tasks, a, b) ensures !(Live(t.tasks[a]) && Live(t.tasks[b])) {
          assert SameKey(s.tasks, a, b);
        }
    }
  }

  lemma KeyGuardDecides()
    ensures Decides(KeyGuard, UniqueKeys)
  {
    forall s, e | Shape(s) && UniqueKeys(s) && Enabled(s, e) ensures UniqueKeys(Next(s, e)) <==> KeyGuard(s, e) {
      UniqueStepIff(s, e);
    }
  }

  /** A key has at most one live task throughout a run, with whatever creations, cancellations and restarts,
      exactly when every direct creation and every restart in it meets its guard. */
  lemma OneLiveTaskIff(s: State, es: seq<Event>, t: State)
    requires Shape(s) && UniqueKeys(s) && Reaches(s, es, t)
    ensures Always(s, es, UniqueKeys) <==> Guarded(s, es, KeyGuard)
  {
    KeyGuardDecides();
    AlwaysIffGuarded(s, es, t, KeyGuard, UniqueKeys);
  }

  ghost predicate Submits(es: seq<Event>) { forall i :: 0 <= i < |es| ==> !es[i].EvDirectCreate? }

  /** A restart finds every end saved. */
  ghost predicate SavedGuard(s: State, e: Event) { e.EvRestart? ==> EndsSaved(s) }

  lemma SavedMeetsKeyGuard(s: State, e: Event)
    requires Shape(s) && UniqueKeys(s) && SavedGuard(s, e) && !e.EvDirectCreate?
    ensures KeyGuard(s, e)
  {
    if e.EvRestart? {
      forall a, b | SameKey(s.disk, a, b) ensures !(Live(s.disk[a]) && Live(s.disk[b])) {
        assert Good(s, a) && Good(s, b);
        assert a !in Unsaved(s) && b !in Unsaved(s);
        assert Live(s.disk[a]) && Live(s.disk[b]) ==> SameKey(s.tasks, a, b);
      }
    }
  }

  /** In every run of the three submitting actions, workers, cancellations, expiry, and restarts that find all
      ends saved, a key has at most one live task. */
  lemma {:induction false} OneLiveTaskPerKey(s: State, es: seq<Event>, t: State)
    requires Shape(s) && UniqueKeys(s) && Reaches(s, es, t)
    requires Submits(es) && Guarded(s, es, SavedGuard)
    ensures UniqueKeys(t)
    decreases |es|
  {
    if es != [] {
      ShapeStep(s, es[0]);
      SavedMeetsKeyGuard(s, es[0]);
      UniqueStepIff(s, es[0]);
      OneLiveTaskPerKey(Next(s, es[0]), es[1..], t);
    }
  }

  /** What the repository lacks after an event when it lacks the ends in u: a cancellation adds one, whatever saves
      the object takes it away. */
  ghost function LacksAfter(s: State, e: Event, u: set<nat>): set<nat> {
    match e
    case EvCancel(id) => if id in s.tasks && Live(s.tasks[id]) then u + {id} else u
    case EvCheckpoint(w) => if w in s.running then u - {s.running[w]} else {}
    case EvFinish(w, outcome) => if w in s.running && outcome != StopsOnCancel then u - {s.running[w]} else u
    case EvResumeSave(id) => u - {id}
    case EvResume(id, end) => if end.BrokenOff? then u else u - {id}
    case EvExpire(ids) => u - ids
    case EvRestart(_, _) => {}
    case _ => u
  }

  ghost function UnsavedAfter(s: State, e: Event): set<nat> { LacksAfter(s, e, Unsaved(s)) }

  lemma UnsavedStep(s: State, e: Event)
    requires Shape(s) && Enabled(s, e)
    ensures Unsaved(Next(s, e)) == UnsavedAfter(s, e)
  {
    match e
    case EvSubmit(key, now) => UnsavedCreate(s, key, now);
    case EvRetryOntology(key, _, now) => UnsavedCreate(s, key, now);
    case EvDirectCreate(key, now) => UnsavedCreate(s, key, now);
    case EvEnqueue(id, verdict) => assert Good(s, id); UnsavedEnqueue(s, id, verdict);
    case EvTake(w) => assert Good(s, s.queue[0]); UnsavedTake(s, w);
    case EvFinish(w, outcome) => assert s.running[w] in s.running.Values && Good(s, s.running[w]); UnsavedFinish(s, w, outcome);
    case EvCheckpoint(w) => UnsavedSave(s, s.running[w]);
    case EvCancel(id) => assert Good(s, id); UnsavedCancel(s, id);
    case EvExpire(ids) => UnsavedExpire(s, ids);
    case EvRestart(order, plan) => UnsavedRestart(s, order, plan);
    case EvResumeSave(id) => UnsavedSave(s, id);
    case EvResume(id, end) =>
      if end.Settled? { UnsavedStore(s.(resuming := s.resuming - {id}), id, end.status); }
      if end.StillPending? { UnsavedSave(s.(resuming := s.resuming - {id}), id); }
      assert Unsaved(s.(resuming := s.resuming - {id})) == Unsaved(s);
  }

  lemma UnsavedSave(s: State, id: nat)
    ensures Unsaved(Save(s, id)) == Unsaved(s) - {id}
  {
  }

  lemma UnsavedStore(s: State, id: nat, status: Status)
    ensures Unsaved(Store(s, id, status)) == Unsaved(s) - {id}
  {
  }

  lemma UnsavedRelease(s: State, id: nat)
    ensures Unsaved(Release(s, id)) == Unsaved(s)
  {
  }

  lemma UnsavedCreate(s: State, key: string, now: nat)
    requires Shape(s)
    ensures Unsaved(Create(s, key, now).0) == Unsaved(s)
  {
    assert Good(s, s.nextId);
  }

  /** A task that waits or runs is unsaved only if it is cancelled, and then it does not move on. */
  lemma UnsavedEnqueue(s: State, id: nat, verdict: Verdict)
    requires id in s.pending && Good(s, id)
    ensures Unsaved(Enqueue(s, id, verdict)) == Unsaved(s)
  {
    var s1 := s.(pending := s.pending - {id});
    assert Unsaved(s1) == Unsaved(s);
    UnsavedStore(s1, id, Failed);
    UnsavedRelease(Store(s1, id, Failed), id);
    UnsavedStore(s1, id, Queued);
    var s2 := Transition(s1, id, Queued);
    assert Unsaved(s2.(queue := s2.queue + [id])) == Unsaved(s2);
  }

  lemma UnsavedTake(s: State, w: nat)
    requires s.queue != [] && s.queue[0] in s.queue && Good(s, s.queue[0])
    ensures Unsaved(Take(s, w)) == Unsaved(s)
  {
    var id, s1 := s.queue[0], s.(queue := s.queue[1..]);
    assert Unsaved(s1) == Unsaved(s);
    UnsavedStore(s1, id, Processing);
    var s2 := Transition(s1, id, Processing);
    assert Unsaved(Take(s, w)) == if id in s.tasks then Unsaved(s2) else Unsaved(s1);
  }

  lemma UnsavedFinish(s: State, w: nat, outcome: Outcome)
    requires w in s.running && Good(s, s.running[w]) && s.running[w] in s.running.Values
    requires outcome == StopsOnCancel ==> s.running[w] in s.handles && s.handles[s.running[w]].cancelled
    ensures Unsaved(Finish(s, w, outcome)) == UnsavedAfter(s, EvFinish(w, outcome))
  {
    var id := s.running[w];
    UnsavedStore(s, id, Completed);
    UnsavedStore(s, id, Failed);
    UnsavedRelease(AfterPipeline(s, id, outcome), id);
    var s2 := Release(AfterPipeline(s, id, outcome), id);
    assert Unsaved(s2.(running := s2.running - {w})) == Unsaved(s2);
    if outcome == StopsOnCancel {
      UnsavedStop(s, id);
    }
  }

  lemma UnsavedStop(s: State, id: nat)
    requires Good(s, id) && id in s.running.Values && id in s.handles && s.handles[id].cancelled
    ensures Unsaved(Transition(s, id, Cancelled)) == Unsaved(s)
  {
    UnsavedStore(s, id, Cancelled);
    assert id in s.dropped ==> !Live(s.dropped[id]);
  }

  lemma UnsavedCancel(s: State, id: nat)
    requires Good(s, id)
    ensures Unsaved(Cancel(s, id)) == UnsavedAfter(s, EvCancel(id))
  {
    if id in s.tasks && Live(s.tasks[id]) {
      var s1 := s.(tasks := s.tasks[id := s.tasks[id].(status := Cancelled)]);
      assert Unsaved(s1) == Unsaved(s) + {id};
      if id in s.handles {
        var s2 := s1.(handles := s1.handles[id := s1.handles[id].(cancelled := true)]);
        assert Unsaved(s2) == Unsaved(s1);
        UnsavedRelease(s2, id);
      }
    }
  }

  lemma UnsavedExpire(s: State, ids: set<nat>)
    ensures Unsaved(Expire(s, ids)) == Unsaved(s) - ids
  {
  }

  lemma UnsavedRestart(s: State, order: seq<nat>, plan: map<nat, Recovery>)
    ensures Unsaved(Restart(s, order, plan)) == {}
  {
  }

  /** Without cancellations every restart finds all ends saved. */
  lemma {:induction false} NoCancelsNoneUnsaved(s: State, es: seq<Event>, t: State)
    requires Shape(s) && EndsSaved(s) && Reaches(s, es, t) && forall i :: 0 <= i < |es| ==> !es[i].EvCancel?
    ensures Guarded(s, es, SavedGuard) && EndsSaved(t)
    decreases |es|
  {
    if es != [] {
      ShapeStep(s, es[0]);
      UnsavedStep(s, es[0]);
      NoCancelsNoneUnsaved(Next(s, es[0]), es[1..], t);
    }
  }

  /** Across any restarts, when nothing is cancelled. */
  lemma OneLiveTaskPerKeyAcrossRestarts(s: State, es: seq<Event>, t: State)
    requires Shape(s) && UniqueKeys(s) && EndsSaved(s) && Reaches(s, es, t)
    requires Submits(es) && forall i :: 0 <= i < |es| ==> !es[i].EvCancel?
    ensures UniqueKeys(t)
  {
    NoCancelsNoneUnsaved(s, es, t);
    OneLiveTaskPerKey(s, es, t);
  }

  /** The times of the events lie within one lifetime of a cache entry. */
  ghost predicate WithinWindow(es: seq<Event>, start: nat) {
    forall i :: 0 <= i < |es| ==>
      (Creates(es[i]) ==> start <= es[i].now < start + IDEMPOTENCY_TTL)
  }

  ghost predicate LiveAreCached(s: State, start: nat) {
    forall id :: id in s.tasks && Live(s.tasks[id]) && s.tasks[id].key != "" ==>
      s.tasks[id].key in s.cache && s.cache[s.tasks[id].key].1 == id
      && s.cache[s.tasks[id].key].0 >= start + IDEMPOTENCY_TTL
  }

  lemma WindowRegister(s: State, key: string, now: nat, start: nat)
    requires Good(s, s.nextId) && LiveAreCached(s, start) && start <= now
    requires key != "" ==> key !in s.cache
    ensures LiveAreCached(Register(s, key, now), start)
  {
  }

  lemma WindowCreate(s: State, key: string, now: nat, start: nat)
    requires Shape(s) && LiveAreCached(s, start) && start <= now < start + IDEMPOTENCY_TTL
    ensures LiveAreCached(Create(s, key, now).0, start)
  {
    assert Good(s, s.nextId);
    if key == "" {
      WindowRegister(s, key, now, start);
    } else if CachedTask(s, key, now).None? {
      var s1 := s.(cache := s.cache - {key});
      assert LiveAreCached(s1, start);
      assert Good(s1, s1.nextId);
      WindowRegister(s1, key, now, start);
    }
  }

  lemma WindowStep(s: State, e: Event, start: nat)
    requires Shape(s) && LiveAreCached(s, start) && Enabled(s, e) && !e.EvRestart?
    requires Creates(e) ==> start <= e.now < start + IDEMPOTENCY_TTL
    ensures LiveAreCached(Next(s, e), start)
  {
    if Creates(e) {
      WindowCreate(s, e.key, e.now, start);
    } else {
      KeepsStep(s, e);
    }
  }

  /** Within one cache lifetime a direct creation is idempotent too. */
  lemma {:induction false} WindowUnique(s: State, es: seq<Event>, t: State, start: nat)
    requires Shape(s) && LiveAreCached(s, start) && Reaches(s, es, t)
    requires WithinWindow(es, start) && forall i :: 0 <= i < |es| ==> !es[i].EvRestart?
    ensures UniqueKeys(t)
    decreases |es|
  {
    if es != [] {
      ShapeStep(s, es[0]);
      WindowStep(s, es[0], start);
      WindowUnique(Next(s, es[0]), es[1..], t, start);
    }
  }

  // ---------- what submission answers ----------

  /** An answer of reuse names the live task of the key; a new task is made only when there is none
      and a slot is free. */
  lemma SubmitAnswer(s: State, key: string, now: nat)
    requires Shape(s) && UniqueKeys(s) && key != ""
    ensures var (t, r) := Submit(s, key, now);
            match r
            case Reused(id, status) =>
              t == s && id in s.tasks && s.tasks[id] == Task(key, status) && Live(s.tasks[id])
              && forall x :: x in s.tasks && s.tasks[x].key == key && Live(s.tasks[x]) ==> x == id
            case Accepted(id) =>
              id !in s.tasks && id in t.tasks && t.tasks[id] == Task(key, Created) && s.active < s.capacity
              && forall x :: x in s.tasks && s.tasks[x].key == key ==> !Live(s.tasks[x])
            case SlotsFull =>
              t.tasks == s.tasks && s.active >= s.capacity
              && forall x :: x in s.tasks && s.tasks[x].key == key ==> !Live(s.tasks[x])
            case AlreadyCompleted(_) => false
  {
    assert Good(s, s.nextId);
    if FirstLive(s, s.order, key).None? {
      NoneLiveInRegistry(s, key);
      CacheAddsNothing(s, key, now);
    }
  }

  /** What an ontology retry answers: a completed task only if no retry is forced, a live one with its status, and
      otherwise every task of the key has ended. */
  lemma RetryAnswer(s: State, key: string, force: bool, now: nat)
    requires Shape(s) && key != ""
    ensures var (t, r) := RetryOntology(s, key, force, now);
            match r
            case AlreadyCompleted(id) => t == s && !force && id in s.tasks && s.tasks[id] == Task(key, Completed)
            case Reused(id, status) => t == s && id in s.tasks && s.tasks[id] == Task(key, status) && Live(s.tasks[id])
            case Accepted(id) =>
              id !in s.tasks && id in t.tasks && t.tasks[id] == Task(key, Created) && s.active < s.capacity
              && forall x :: x in s.tasks && s.tasks[x].key == key ==> !Live(s.tasks[x])
            case SlotsFull =>
              t.tasks == s.tasks && s.active >= s.capacity
              && forall x :: x in s.tasks && s.tasks[x].key == key ==> !Live(s.tasks[x])
  {
    assert Good(s, s.nextId);
    if FirstSettled(s, s.order, key, force).None? {
      forall x | x in s.tasks && s.tasks[x].key == key ensures !Live(s.tasks[x]) { assert Good(s, x); }
      assert FirstLive(s, s.order, key).None?;
      CacheAddsNothing(s, key, now);
    }
  }

  /** What a direct creation answers: a cached live task of the key whose entry is not too old, or a new task. */
  lemma CreateAnswer(s: State, key: string, now: nat)
    requires Shape(s)
    ensures var (t, r) := Create(s, key, now);
            match r
            case Reused(id, status) =>
              t == s && key != "" && id in s.tasks && s.tasks[id] == Task(key, status) && Live(s.tasks[id])
              && key in s.cache && s.cache[key].1 == id && now < s.cache[key].0
            case Accepted(id) => id !in s.tasks && id in t.tasks && t.tasks[id] == Task(key, Created) && s.active < s.capacity
            case SlotsFull => t.tasks == s.tasks && s.active >= s.capacity
            case AlreadyCompleted(_) => false
  {
    assert Good(s, s.nextId);
  }

  /** An ontology retry makes a task exactly when every task of the key has ended, and either a retry
      is forced or none of them completed, and a slot is free. */
  lemma RetryCreatesIff(s: State, key: string, force: bool, now: nat)
    requires Shape(s) && key != ""
    ensures RetryOntology(s, key, force, now).1.Accepted? <==>
      (forall id :: id in s.tasks && s.tasks[id].key == key ==>
         !Live(s.tasks[id]) && (force || s.tasks[id].status != Completed))
      && s.active < s.capacity
  {
    match FirstSettled(s, s.order, key, force)
    case Some(id) =>
    case None =>
      forall id | id in s.tasks && s.tasks[id].key == key
        ensures !Live(s.tasks[id]) && (force || s.tasks[id].status != Completed)
      {
        assert Good(s, id);
      }
      assert FirstLive(s, s.order, key).None?;
      CacheAddsNothing(s, key, now);
  }

  // ---------- ends are final as a class ----------

  /** A task that has ended never comes back to life without a restart. */
  lemma {:induction false} EndedForGood(s: State, es: seq<Event>, t: State, id: nat)
    requires Shape(s) && Reaches(s, es, t) && forall i :: 0 <= i < |es| ==> !es[i].EvRestart?
    requires id < s.nextId && (id in s.tasks ==> !Live(s.tasks[id]))
    ensures id in t.tasks ==> !Live(t.tasks[id])
    decreases |es|
  {
    if es != [] {
      ShapeStep(s, es[0]);
      KeepsStep(s, es[0]);
      EndedForGood(Next(s, es[0]), es[1..], t, id);
    }
  }

  /** The registered task has the status; it may also have been dropped. */
  ghost predicate HasStatus(s: State, id: nat, status: Status) {
    id < s.nextId && (id in s.tasks ==> s.tasks[id].status == status)
  }

  /** The status a pipeline sets, if it sets one. */
  function OutcomeStatus(outcome: Outcome): Option<Status> {
    match outcome
    case Succeeds => Some(Completed)
    case Breaks => Some(Failed)
    case StopsOnCancel => None
  }

  /** The events that leave an ended status as it is: not the end of the task's own pipeline or resume coroutine
      with another status, and not a restart that reads or sets another one. */
  ghost predicate StatusGuard(s: State, e: Event, id: nat, status: Status) {
    match e
    case EvFinish(w, outcome) =>
      w in s.running && s.running[w] == id && id in s.tasks ==>
        OutcomeStatus(outcome) == None || OutcomeStatus(outcome) == Some(status)
    case EvResume(x, end) => x == id && id in s.tasks && end.Settled? ==> end.status == status
    case EvRestart(_, plan) => id in s.disk ==> Recovered(s.disk[id], PlanFor(plan, id)).status == status
    case _ => true
  }

  lemma StatusStepIff(s: State, e: Event, id: nat, status: Status)
    requires Shape(s) && Enabled(s, e) && Terminal(status) && HasStatus(s, id, status)
    ensures HasStatus(Next(s, e), id, status) <==> StatusGuard(s, e, id, status)
  {
    match e
    case EvEnqueue(x, verdict) => StatusEnqueue(s, x, verdict, id, status);
    case EvTake(w) => StatusTake(s, w, id, status);
    case EvFinish(w, outcome) => StatusFinish(s, w, outcome, id, status);
    case EvCancel(x) => StatusCancel(s, x, id, status);
    case EvResume(x, end) => StatusResume(s, x, end, id, status);
    case EvCheckpoint(_) =>
    case EvExpire(_) =>
    case EvRestart(order, plan) => StatusRestart(s, order, plan, id, status);
    case EvResumeSave(_) =>
    case _ => KeepsStep(s, e);
  }

  lemma StatusEnqueue(s: State, x: nat, verdict: Verdict, id: nat, status: Status)
    requires Shape(s) && x in s.pending && Terminal(status) && HasStatus(s, id, status)
    ensures HasStatus(Enqueue(s, x, verdict), id, status)
  {
    assert Good(s, id);
    EnqueueNothingNew(s, x, verdict) by { assert Good(s, x); }
    if x != id { ElsewhereEnqueue(s, x, verdict, id); }
  }

  lemma StatusTake(s: State, w: nat, id: nat, status: Status)
    requires Shape(s) && s.queue != [] && w !in s.running && Terminal(status) && HasStatus(s, id, status)
    ensures HasStatus(Take(s, w), id, status)
  {
    if s.queue[0] != id { ElsewhereTake(s, w, id); }
  }

  lemma StatusFinish(s: State, w: nat, outcome: Outcome, id: nat, status: Status)
    requires Shape(s) && w in s.running && Terminal(status) && HasStatus(s, id, status)
    ensures HasStatus(Finish(s, w, outcome), id, status) <==> StatusGuard(s, EvFinish(w, outcome), id, status)
  {
    var x := s.running[w];
    assert x in s.running.Values && Good(s, x);
    FinishNothingNew(s, w, outcome);
    if x != id {
      ElsewhereFinish(s, w, outcome, id);
    } else {
      StatusPipeline(s, id, outcome, status);
      ReleaseTasks(AfterPipeline(s, id, outcome), id);
    }
  }

  lemma StatusPipeline(s: State, id: nat, outcome: Outcome, status: Status)
    requires Terminal(status) && HasStatus(s, id, status) && !(id in s.tasks && id in s.dropped)
    ensures var t := AfterPipeline(s, id, outcome);
            && (id in t.tasks <==> id in s.tasks)
            && (id in s.tasks ==>
                  t.tasks[id].status == if OutcomeStatus(outcome).Some? then OutcomeStatus(outcome).value else status)
  {
  }

  lemma ReleaseTasks(s: State, id: nat)
    ensures Release(s, id).tasks == s.tasks
  {
  }

  lemma StatusCancel(s: State, x: nat, id: nat, status: Status)
    requires Terminal(status) && HasStatus(s, id, status)
    ensures HasStatus(Cancel(s, x), id, status)
  {
    if x != id { ElsewhereCancel(s, x, id); }
    CancelNothingNew(s, x);
  }

  lemma StatusResume(s: State, x: nat, end: ResumeEnd, id: nat, status: Status)
    requires Shape(s) && Enabled(s, EvResume(x, end)) && Terminal(status) && HasStatus(s, id, status)
    ensures HasStatus(Resume(s, x, end), id, status) <==> StatusGuard(s, EvResume(x, end), id, status)
  {
    ResumeNothingNew(s, x, end);
    if x != id { ElsewhereResume(s, x, end, id); }
  }

  lemma StatusRestart(s: State, order: seq<nat>, plan: map<nat, Recovery>, id: nat, status: Status)
    requires HasStatus(s, id, status)
    ensures HasStatus(Restart(s, order, plan), id, status) <==> StatusGuard(s, EvRestart(order, plan), id, status)
  {
  }

  /** Throughout a run an ended task keeps its status exactly when every event meets its guard. */
  lemma EndStaysIff(s: State, es: seq<Event>, t: State, id: nat, status: Status)
    requires Shape(s) && Terminal(status) && HasStatus(s, id, status) && Reaches(s, es, t)
    ensures Always(s, es, (x: State) => HasStatus(x, id, status)) <==>
            Guarded(s, es, (x: State, e: Event) => StatusGuard(x, e, id, status))
  {
    var p, g := (x: State) => HasStatus(x, id, status), (x: State, e: Event) => StatusGuard(x, e, id, status);
    forall x, e | Shape(x) && p(x) && Enabled(x, e) ensures p(Next(x, e)) <==> g(x, e) {
      StatusStepIff(x, e, id, status);
    }
    AlwaysIffGuarded(s, es, t, g, p);
  }

  /** Without a restart the status of an ended registered task changes exactly when its own pipeline finishes with
      another status, or its resume coroutine settles it to another one. */
  lemma EndedChangesIff(s: State, e: Event, id: nat)
    requires Shape(s) && Enabled(s, e) && !e.EvRestart? && id in s.tasks && !Live(s.tasks[id])
    ensures id in Next(s, e).tasks && Next(s, e).tasks[id].status != s.tasks[id].status <==>
            || (e.EvFinish? && s.running[e.worker] == id && OutcomeStatus(e.outcome).Some?
                && OutcomeStatus(e.outcome).value != s.tasks[id].status)
            || (e.EvResume? && e.id == id && e.end.Settled? && e.end.status != s.tasks[id].status)
  {
    assert Good(s, id);
    StatusStepIff(s, e, id, s.tasks[id].status);
    KeepsStep(s, e);
  }

  /** A restart revives an ended task exactly when its end is unsaved and recovery does not give it up. */
  lemma RevivedIff(s: State, order: seq<nat>, plan: map<nat, Recovery>, id: nat)
    requires Shape(s) && Enabled(s, EvRestart(order, plan)) && id in s.tasks && !Live(s.tasks[id])
    ensures var t := Restart(s, order, plan);
            id in t.tasks && (Live(t.tasks[id]) <==> id in Unsaved(s) && PlanFor(plan, id) != GiveUp)
  {
    assert Good(s, id);
  }

  // ---------- no task is lost ----------

  ghost predicate RecoveryGuard(s: State, e: Event) { !Strands(s, e) }

  /** Recovered tasks stay attended exactly when no resume coroutine leaves a live task without a verdict. */
  lemma RecoveryStepIff(s: State, e: Event)
    requires Shape(s) && RecoveryAttended(s) && Enabled(s, e)
    ensures RecoveryAttended(Next(s, e)) <==> RecoveryGuard(s, e)
  {
    if !e.EvRestart? { KeepsStep(s, e); }
  }

  lemma RecoveryGuardDecides()
    ensures Decides(RecoveryGuard, RecoveryAttended)
  {
    forall s, e | Shape(s) && RecoveryAttended(s) && Enabled(s, e)
      ensures RecoveryAttended(Next(s, e)) <==> RecoveryGuard(s, e)
    {
      RecoveryStepIff(s, e);
    }
  }

  lemma RecoveryAlwaysIff(s: State, es: seq<Event>, t: State)
    requires Shape(s) && RecoveryAttended(s) && Reaches(s, es, t)
    ensures Always(s, es, RecoveryAttended) <==> Guarded(s, es, RecoveryGuard)
    ensures Guarded(s, es, RecoveryGuard) ==> RecoveryAttended(t)
  {
    RecoveryGuardDecides();
    AlwaysIffGuarded(s, es, t, RecoveryGuard, RecoveryAttended);
  }

  /** Recovered tasks are attended exactly when no live task is stranded. */
  lemma AttendedIff(s: State)
    requires Shape(s)
    ensures RecoveryAttended(s) <==> forall id :: !Stranded(s, id)
  {
    forall id: nat ensures Stranded(s, id) <==> id in s.tasks && Live(s.tasks[id]) && id in s.uncounted && id !in s.resuming {
      assert Good(s, id);
    }
  }

  /** In every run, restarts and cancellations included, in which no resume coroutine leaves a live task
      without a verdict: each live task is at exactly one place where someone will carry it on. */
  lemma NoTaskIsLost(s: State, es: seq<Event>, t: State, id: nat)
    requires Shape(s) && RecoveryAttended(s) && Reaches(s, es, t) && Guarded(s, es, RecoveryGuard)
    requires id in t.tasks && Live(t.tasks[id])
    ensures Attended(t, id) || id in t.resuming
    ensures !(id in t.pending && id in t.queue) && !(id in t.pending && id in t.running.Values)
            && !(id in t.queue && id in t.running.Values) && !(Attended(t, id) && id in t.resuming)
  {
    RunShape(s, es, t);
    RecoveryAlwaysIff(s, es, t);
    assert Good(t, id);
  }

  /** A stranded task blocks its key: until a restart or its own cancellation every submission under
      the key is answered with it, and nothing moves it. */
  lemma {:induction false} StrandedBlocksKey(s: State, es: seq<Event>, t: State, id: nat, now: nat)
    requires Shape(s) && UniqueKeys(s) && Stranded(s, id) && s.tasks[id].key != "" && Reaches(s, es, t)
    requires Submits(es) && forall i :: 0 <= i < |es| ==> !es[i].EvRestart? && es[i] != EvCancel(id)
    ensures Stranded(t, id) && t.tasks[id] == s.tasks[id]
    ensures Submit(t, s.tasks[id].key, now) == (t, Reused(id, s.tasks[id].status))
    decreases |es|
  {
    if es == [] {
      SubmitAnswer(s, s.tasks[id].key, now);
    } else {
      ShapeStep(s, es[0]);
      UniqueStepIff(s, es[0]);
      KeepsStep(s, es[0]);
      assert KeepsStranded(s, Next(s, es[0]), id);
      StrandedBlocksKey(Next(s, es[0]), es[1..], t, id, now);
    }
  }
}
