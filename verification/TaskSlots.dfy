/** Slots, capacity and pipelines of the task engine over whole runs. */
module TaskSlots {
  import opened Options
  import opened Sequences
  import opened TaskStates
  import opened TaskInvariants
  import opened TaskRuns

  // ---------- slots ----------

  /** Tasks that took a slot and have not given it back. */
  ghost function Holders(s: State): set<nat> {
    set id | id in s.handles && !s.handles[id].released && id !in s.uncounted
  }

  ghost predicate SlotsExact(s: State) { s.active == |Holders(s)| }

  lemma ReleaseSlots(s: State, id: nat)
    requires SlotsExact(s) && id !in s.uncounted
    ensures SlotsExact(Release(s, id))
  {
    var t := Release(s, id);
    if id in Holders(s) {
      assert Holders(t) == Holders(s) - {id};
    } else {
      assert Holders(t) == Holders(s);
    }
  }

  lemma SameHolders(s: State, t: State)
    requires SlotsExact(s) && t.active == s.active && t.uncounted == s.uncounted
    requires forall id :: id in s.handles <==> id in t.handles
    requires forall id :: id in s.handles ==> t.handles[id].released == s.handles[id].released
    ensures SlotsExact(t)
  {
    assert Holders(t) == Holders(s);
  }

  lemma SlotsRegister(s: State, key: string, now: nat)
    requires Shape(s) && SlotsExact(s)
    ensures SlotsExact(Register(s, key, now))
  {
    assert Good(s, s.nextId);
    assert Holders(Register(s, key, now)) == Holders(s) + {s.nextId};
  }

  lemma SlotsCreate(s: State, key: string, now: nat)
    requires Shape(s) && SlotsExact(s)
    ensures SlotsExact(Create(s, key, now).0)
  {
    var s1 := if key != "" then s.(cache := s.cache - {key}) else s;
    SameHolders(s, s1);
    forall id: nat ensures Good(s1, id) { assert Good(s, id); }
    SlotsRegister(s1, key, now);
  }

  lemma SlotsEnqueue(s: State, id: nat, verdict: Verdict)
    requires Shape(s) && SlotsExact(s) && id in s.pending
    ensures SlotsExact(Enqueue(s, id, verdict))
  {
    assert Good(s, id);
    var s1 := s.(pending := s.pending - {id});
    SameHolders(s, s1);
    SameHolders(s, Store(s1, id, Failed));
    ReleaseSlots(Store(s1, id, Failed), id);
    if verdict == Valid { SameHolders(s, Enqueue(s, id, verdict)); }
  }

  lemma SlotsFinish(s: State, worker: nat, outcome: Outcome)
    requires Shape(s) && SlotsExact(s) && Enabled(s, EvFinish(worker, outcome))
    ensures SlotsExact(Finish(s, worker, outcome))
  {
    var id := s.running[worker];
    assert id in s.running.Values && Good(s, id);
    var s1 := AfterPipeline(s, id, outcome);
    SameHolders(s, s1);
    ReleaseSlots(s1, id);
    SameHolders(Release(s1, id), Finish(s, worker, outcome));
  }

  /** The cancellation of a recovered task that never took a slot, and has not been cancelled before, gives one
      back all the same when there is one to give. */
  ghost predicate Undercounts(s: State, id: nat) {
    id in s.uncounted && id in s.tasks && Live(s.tasks[id]) && id in s.handles && !s.handles[id].released && s.active > 0
  }

  lemma SlotsCancelIff(s: State, id: nat)
    requires Shape(s) && SlotsExact(s)
    ensures SlotsExact(Cancel(s, id)) <==> !Undercounts(s, id)
  {
    if id in s.tasks && Live(s.tasks[id]) && id in s.handles {
      var s1 := s.(tasks := s.tasks[id := s.tasks[id].(status := Cancelled)],
                   handles := s.handles[id := s.handles[id].(cancelled := true)]);
      SameHolders(s, s1);
      assert Cancel(s, id) == Release(s1, id);
      if id !in s.uncounted {
        ReleaseSlots(s1, id);
      } else {
        assert Holders(Release(s1, id)) == Holders(s1);
      }
    } else {
      SameHolders(s, Cancel(s, id));
    }
  }

  ghost function Elements(q: seq<nat>): set<nat> { set x | x in q }

  lemma {:induction false} DistinctSize(q: seq<nat>)
    requires Distinct(q)
    ensures |Elements(q)| == |q|
  {
    if q == [] {
      assert Elements(q) == {};
    } else {
      HeadOut(q);
      DistinctSize(q[1..]);
      assert Elements(q) == Elements(q[1..]) + {q[0]};
    }
  }

  lemma SlotsRestart(s: State, order: seq<nat>, plan: map<nat, Recovery>)
    requires Enabled(s, EvRestart(order, plan))
    ensures SlotsExact(Restart(s, order, plan))
  {
    var t := Restart(s, order, plan);
    RequeueIn(s.disk, plan, order);
    DistinctSize(t.queue);
    assert Holders(t) == Elements(t.queue);
  }

  ghost predicate SlotGuard(s: State, e: Event) { e.EvCancel? ==> !Undercounts(s, e.id) }

  /** The slot count is the number of holders after an event exactly when the event is no cancellation that
      undercounts. */
  lemma SlotsStepIff(s: State, e: Event)
    requires Shape(s) && SlotsExact(s) && Enabled(s, e)
    ensures SlotsExact(Next(s, e)) <==> SlotGuard(s, e)
  {
    match e
    case EvSubmit(key, now) => SlotsCreate(s, key, now);
    case EvRetryOntology(key, _, now) => SlotsCreate(s, key, now);
    case EvDirectCreate(key, now) => SlotsCreate(s, key, now);
    case EvEnqueue(id, verdict) => SlotsEnqueue(s, id, verdict);
    case EvTake(w) => SlotsTake(s, w);
    case EvFinish(w, outcome) => SlotsFinish(s, w, outcome);
    case EvCheckpoint(w) => SameHolders(s, Next(s, e));
    case EvCancel(id) => SlotsCancelIff(s, id);
    case EvExpire(_) => SameHolders(s, Next(s, e));
    case EvRestart(order, plan) => SlotsRestart(s, order, plan);
    case EvResumeSave(_) => SameHolders(s, Next(s, e));
    case EvResume(_, _) => SameHolders(s, Next(s, e));
  }

  lemma SlotsTake(s: State, w: nat)
    requires Shape(s) && SlotsExact(s) && s.queue != []
    ensures SlotsExact(Take(s, w))
  {
    assert s.queue[0] in s.queue && Good(s, s.queue[0]);
    SameHolders(s, Take(s, w));
  }

  lemma SlotGuardDecides()
    ensures Decides(SlotGuard, SlotsExact)
  {
    forall s, e | Shape(s) && SlotsExact(s) && Enabled(s, e) ensures SlotsExact(Next(s, e)) <==> SlotGuard(s, e) {
      SlotsStepIff(s, e);
    }
  }

  /** Throughout a run the count is the number of holders exactly when no cancellation in it undercounts. */
  lemma SlotsAlwaysIff(s: State, es: seq<Event>, t: State)
    requires Shape(s) && SlotsExact(s) && Reaches(s, es, t)
    ensures Always(s, es, SlotsExact) <==> Guarded(s, es, SlotGuard)
    ensures Guarded(s, es, SlotGuard) ==> SlotsExact(t)
  {
    SlotGuardDecides();
    AlwaysIffGuarded(s, es, t, SlotGuard, SlotsExact);
  }

  /** In such a run slots neither leak nor are given back twice: the count is the number of holders, every
      holder is attended, and with nothing pending, queued or running the count is zero. */
  lemma SlotsNeverLeak(s: State, es: seq<Event>, t: State)
    requires Shape(s) && SlotsExact(s) && Reaches(s, es, t) && Guarded(s, es, SlotGuard)
    ensures SlotsExact(t)
    ensures forall id :: id in Holders(t) ==> Attended(t, id)
    ensures t.pending == {} && t.queue == [] && t.running == map[] ==> t.active == 0
  {
    RunShape(s, es, t);
    SlotsAlwaysIff(s, es, t);
    forall id | id in Holders(t) ensures Attended(t, id) { assert Good(t, id); }
    if t.pending == {} && t.queue == [] && t.running == map[] {
      assert Holders(t) == {};
    }
  }

  ghost predicate WithinCapacity(s: State) { s.active <= s.capacity }

  /** A restart keeps the slots taken within the capacity exactly when it queues no more tasks than that. */
  ghost predicate CapacityGuard(s: State, e: Event) {
    e.EvRestart? ==> |RequeueList(s.disk, e.plan, e.order)| <= s.capacity
  }

  lemma CapacityStepIff(s: State, e: Event)
    requires Shape(s) && WithinCapacity(s) && Enabled(s, e)
    ensures WithinCapacity(Next(s, e)) <==> CapacityGuard(s, e)
    ensures Next(s, e).capacity == s.capacity
  {
    if !e.EvRestart? {
      KeepsStep(s, e);
    }
  }

  /** Throughout a run the slots taken stay within the capacity exactly when every restart fits. */
  lemma CapacityAlwaysIff(s: State, es: seq<Event>, t: State)
    requires Shape(s) && WithinCapacity(s) && Reaches(s, es, t)
    ensures Always(s, es, WithinCapacity) <==> Guarded(s, es, CapacityGuard)
    ensures Guarded(s, es, CapacityGuard) ==> WithinCapacity(t)
  {
    forall u, e | Shape(u) && WithinCapacity(u) && Enabled(u, e)
      ensures WithinCapacity(Next(u, e)) <==> CapacityGuard(u, e)
    {
      CapacityStepIff(u, e);
    }
    AlwaysIffGuarded(s, es, t, CapacityGuard, WithinCapacity);
  }

  // ---------- pipelines ----------

  ghost predicate NothingCancelled(s: State) {
    forall id :: id in s.handles ==> !s.handles[id].cancelled
  }

  lemma FinishCancelsNothing(s: State, w: nat, outcome: Outcome)
    requires NothingCancelled(s) && w in s.running
    ensures NothingCancelled(Finish(s, w, outcome))
  {
  }

  lemma EnqueueCancelsNothing(s: State, id: nat, verdict: Verdict)
    requires NothingCancelled(s)
    ensures NothingCancelled(Enqueue(s, id, verdict))
  {
  }

  lemma CreateCancelsNothing(s: State, key: string, now: nat)
    requires NothingCancelled(s)
    ensures NothingCancelled(Create(s, key, now).0)
  {
  }

  lemma StillNothingCancelled(s: State, e: Event)
    requires NothingCancelled(s) && Enabled(s, e) && !e.EvCancel?
    ensures NothingCancelled(Next(s, e))
  {
    if Creates(e) {
      CreateCancelsNothing(s, e.key, e.now);
    } else if e.EvEnqueue? {
      EnqueueCancelsNothing(s, e.id, e.verdict);
    } else if e.EvFinish? {
      FinishCancelsNothing(s, e.worker, e.outcome);
    }
  }

  ghost predicate SameObjectKey(s: State, a: nat, b: nat) {
    Object(s, a).Some? && Object(s, b).Some? && Object(s, a).value.key == Object(s, b).value.key
    && Object(s, a).value.key != ""
  }

  /** No two workers run tasks of one key. */
  ghost predicate OnePipeline(s: State) {
    forall v, w :: v in s.running && w in s.running && v != w ==> !SameObjectKey(s, s.running[v], s.running[w])
  }

  /** The head of the queue is not registered any more, has no key, or no running task has its key. */
  ghost predicate PipelineGuard(s: State, e: Event) {
    e.EvTake? && s.queue != [] && s.queue[0] in s.tasks ==>
      forall w :: w in s.running ==> !SameObjectKey(s, s.queue[0], s.running[w])
  }

  /** An event keeps one pipeline per key exactly when it meets the guard: only a take can break it. */
  lemma PipelineStepIff(s: State, e: Event)
    requires Shape(s) && OnePipeline(s) && Enabled(s, e)
    ensures OnePipeline(Next(s, e)) <==> PipelineGuard(s, e)
  {
    if e.EvTake? {
      PipelineTakeIff(s, e.worker);
    } else if !e.EvRestart? {
      var t := Next(s, e);
      RunningAfter(s, e);
      forall v, w | v in t.running && w in t.running && v != w ensures !SameObjectKey(t, t.running[v], t.running[w]) {
        assert s.running[v] in s.running.Values && s.running[w] in s.running.Values;
        assert Good(s, s.running[v]) && Good(s, s.running[w]);
        KeyStays(s, e, s.running[v]);
        KeyStays(s, e, s.running[w]);
        assert !SameObjectKey(s, s.running[v], s.running[w]);
      }
    }
  }

  lemma RunningAfter(s: State, e: Event)
    requires Enabled(s, e) && !e.EvTake?
    ensures forall w :: w in Next(s, e).running ==> w in s.running && Next(s, e).running[w] == s.running[w]
  {
    match e
    case EvEnqueue(id, verdict) => RunningEnqueue(s, id, verdict);
    case EvFinish(w, outcome) => RunningFinish(s, w, outcome);
    case EvCancel(id) => RunningCancel(s, id);
    case EvResume(id, end) => RunningResume(s, id, end);
    case _ =>
  }

  lemma RunningCancel(s: State, id: nat)
    ensures Cancel(s, id).running == s.running
  {
  }

  lemma RunningResume(s: State, id: nat, end: ResumeEnd)
    ensures Resume(s, id, end).running == s.running
  {
  }

  lemma RunningEnqueue(s: State, id: nat, verdict: Verdict)
    ensures Enqueue(s, id, verdict).running == s.running
  {
  }

  lemma RunningFinish(s: State, w: nat, outcome: Outcome)
    requires w in s.running
    ensures Finish(s, w, outcome).running == s.running - {w}
  {
  }

  /** Both states know the object, under the same key. */
  ghost predicate KeyKept(s: State, t: State, x: nat) {
    Object(s, x).Some? && Object(t, x).Some? && Object(t, x).value.key == Object(s, x).value.key
  }

  /** A task keeps its key, registered or dropped, until a restart. */
  lemma KeyStays(s: State, e: Event, x: nat)
    requires Shape(s) && Enabled(s, e) && !e.EvTake? && !e.EvRestart? && Object(s, x).Some?
    ensures KeyKept(s, Next(s, e), x)
  {
    assert Good(s, x);
    match e
    case EvSubmit(key, now) => KeyStaysCreate(s, key, now, x);
    case EvRetryOntology(key, _, now) => KeyStaysCreate(s, key, now, x);
    case EvDirectCreate(key, now) => KeyStaysCreate(s, key, now, x);
    case EvEnqueue(id, verdict) => KeyStaysEnqueue(s, id, verdict, x);
    case EvFinish(w, outcome) => KeyStaysFinish(s, w, outcome, x);
    case EvCancel(id) => KeyStaysCancel(s, id, x);
    case EvExpire(ids) => KeyStaysExpire(s, ids, x);
    case EvCheckpoint(_) =>
    case EvResumeSave(_) =>
    case EvResume(id, end) => KeyStaysResume(s, id, end, x);
  }

  lemma KeyStaysCancel(s: State, id: nat, x: nat)
    requires Object(s, x).Some?
    ensures KeyKept(s, Cancel(s, id), x)
  {
  }

  lemma KeyStaysExpire(s: State, ids: set<nat>, x: nat)
    requires Good(s, x) && Object(s, x).Some?
    ensures KeyKept(s, Expire(s, ids), x)
  {
  }

  lemma KeyStaysResume(s: State, id: nat, end: ResumeEnd, x: nat)
    requires Object(s, x).Some?
    ensures KeyKept(s, Resume(s, id, end), x)
  {
    if end.Settled? { KeyStaysStore(s.(resuming := s.resuming - {id}), id, end.status, x); }
  }

  lemma KeyStaysStore(s: State, id: nat, status: Status, x: nat)
    requires Object(s, x).Some?
    ensures KeyKept(s, Store(s, id, status), x)
  {
  }

  lemma KeyStaysEnqueue(s: State, id: nat, verdict: Verdict, x: nat)
    requires Object(s, x).Some?
    ensures KeyKept(s, Enqueue(s, id, verdict), x)
  {
    var s1 := s.(pending := s.pending - {id});
    KeyStaysStore(s1, id, Failed, x);
    KeyStaysStore(s1, id, Queued, x);
  }

  lemma KeyStaysFinish(s: State, w: nat, outcome: Outcome, x: nat)
    requires Object(s, x).Some? && w in s.running
    ensures KeyKept(s, Finish(s, w, outcome), x)
  {
    var status := match outcome case Succeeds => Completed case Breaks => Failed case StopsOnCancel => Cancelled;
    KeyStaysStore(s, s.running[w], status, x);
  }

  lemma KeyStaysCreate(s: State, key: string, now: nat, x: nat)
    requires Shape(s) && Object(s, x).Some?
    ensures KeyKept(s, Create(s, key, now).0, x)
  {
    assert Good(s, x) && Good(s, s.nextId);
  }

  lemma PipelineTakeIff(s: State, worker: nat)
    requires Shape(s) && OnePipeline(s) && s.queue != [] && worker !in s.running
    ensures OnePipeline(Take(s, worker)) <==> PipelineGuard(s, EvTake(worker))
  {
    var id, t := s.queue[0], Take(s, worker);
    assert id in s.queue && Good(s, id);
    KeysAfterTake(s, worker);
    if id in s.tasks {
      forall w | w in s.running ensures w in t.running && t.running[w] == s.running[w] && w != worker {
      }
      assert worker in t.running && t.running[worker] == id;
      if OnePipeline(t) {
        forall w | w in s.running ensures !SameObjectKey(s, id, s.running[w]) {
          assert !SameObjectKey(t, t.running[worker], t.running[w]);
        }
      }
      if PipelineGuard(s, EvTake(worker)) {
        forall v, w | v in t.running && w in t.running && v != w ensures !SameObjectKey(t, t.running[v], t.running[w]) {
          if v != worker && w != worker {
            assert !SameObjectKey(s, s.running[v], s.running[w]);
          } else {
            var u := if v == worker then w else v;
            assert !SameObjectKey(s, id, s.running[u]);
          }
        }
      }
    }
  }

  lemma KeysAfterTake(s: State, worker: nat)
    requires s.queue != []
    ensures forall a, b :: SameObjectKey(Take(s, worker), a, b) <==> SameObjectKey(s, a, b)
  {
    forall a ensures Object(Take(s, worker), a).Some? <==> Object(s, a).Some?
      ensures Object(s, a).Some? ==> Object(Take(s, worker), a).value.key == Object(s, a).value.key
    {
    }
  }

  /** Throughout a run no two workers run tasks of one key exactly when every take meets the guard. */
  lemma PipelineAlwaysIff(s: State, es: seq<Event>, t: State)
    requires Shape(s) && OnePipeline(s) && Reaches(s, es, t)
    ensures Always(s, es, OnePipeline) <==> Guarded(s, es, PipelineGuard)
    ensures Guarded(s, es, PipelineGuard) ==> OnePipeline(t)
  {
    forall u, e | Shape(u) && OnePipeline(u) && Enabled(u, e) ensures OnePipeline(Next(u, e)) <==> PipelineGuard(u, e) {
      PipelineStepIff(u, e);
    }
    AlwaysIffGuarded(s, es, t, PipelineGuard, OnePipeline);
  }

  /** With one live task per key, a take breaks the guard only if the task taken or the one that runs was
      cancelled. */
  lemma BreachIsCancelled(s: State, w: nat)
    requires Shape(s) && UniqueKeys(s) && s.queue != [] && s.queue[0] in s.tasks
    requires w in s.running && SameObjectKey(s, s.queue[0], s.running[w])
    ensures var id, run := s.queue[0], s.running[w];
            id in s.handles && run in s.handles && (s.handles[id].cancelled || s.handles[run].cancelled)
  {
    var id, run := s.queue[0], s.running[w];
    assert id in s.queue && run in s.running.Values && Good(s, id) && Good(s, run);
    if !s.handles[id].cancelled && !s.handles[run].cancelled {
      assert SameKey(s.tasks, id, run);
    }
  }

  /** Without cancellations no two workers run tasks of the same key, restarts or not. */
  lemma OnePipelinePerKey(s: State, es: seq<Event>, t: State)
    requires Shape(s) && UniqueKeys(s) && EndsSaved(s) && NothingCancelled(s) && OnePipeline(s) && Reaches(s, es, t)
    requires Submits(es) && forall i :: 0 <= i < |es| ==> !es[i].EvCancel?
    ensures OnePipeline(t)
  {
    NoCancelsGuarded(s, es, t);
    PipelineAlwaysIff(s, es, t);
  }

  lemma {:induction false} NoCancelsGuarded(s: State, es: seq<Event>, t: State)
    requires Shape(s) && UniqueKeys(s) && EndsSaved(s) && NothingCancelled(s) && Reaches(s, es, t)
    requires Submits(es) && forall i :: 0 <= i < |es| ==> !es[i].EvCancel?
    ensures Guarded(s, es, PipelineGuard)
    decreases |es|
  {
    if es != [] {
      var e := es[0];
      if e.EvTake? && s.queue[0] in s.tasks {
        forall w | w in s.running ensures !SameObjectKey(s, s.queue[0], s.running[w]) {
          if SameObjectKey(s, s.queue[0], s.running[w]) { BreachIsCancelled(s, w); }
        }
      }
      ShapeStep(s, e);
      UnsavedStep(s, e);
      SavedMeetsKeyGuard(s, e);
      UniqueStepIff(s, e);
      StillNothingCancelled(s, e);
      NoCancelsGuarded(Next(s, e), es[1..], t);
    }
  }

  // ---------- from the start ----------

  /** A fresh engine meets every starting condition. */
  lemma FreshIsGood(capacity: nat)
    ensures var s := Initial(capacity);
            && Shape(s) && UniqueKeys(s) && EndsSaved(s) && RecoveryAttended(s) && SlotsExact(s) && WithinCapacity(s)
            && NothingCancelled(s) && OnePipeline(s) && forall start :: LiveAreCached(s, start)
  {
    ShapeInitial(capacity);
    assert Holders(Initial(capacity)) == {};
  }

  /** What holds of every run of a fresh engine: the shape always, and each of the five properties throughout
      exactly as far as the events of the run meet its guard. */
  lemma EveryRun(capacity: nat, es: seq<Event>, t: State)
    requires Reaches(Initial(capacity), es, t)
    ensures Shape(t)
    ensures Always(Initial(capacity), es, UniqueKeys) <==> Guarded(Initial(capacity), es, KeyGuard)
    ensures Always(Initial(capacity), es, RecoveryAttended) <==> Guarded(Initial(capacity), es, RecoveryGuard)
    ensures Always(Initial(capacity), es, SlotsExact) <==> Guarded(Initial(capacity), es, SlotGuard)
    ensures Always(Initial(capacity), es, WithinCapacity) <==> Guarded(Initial(capacity), es, CapacityGuard)
    ensures Always(Initial(capacity), es, OnePipeline) <==> Guarded(Initial(capacity), es, PipelineGuard)
  {
    var s := Initial(capacity);
    FreshIsGood(capacity);
    RunShape(s, es, t);
    OneLiveTaskIff(s, es, t);
    RecoveryAlwaysIff(s, es, t);
    SlotsAlwaysIff(s, es, t);
    CapacityAlwaysIff(s, es, t);
    PipelineAlwaysIff(s, es, t);
  }
}
