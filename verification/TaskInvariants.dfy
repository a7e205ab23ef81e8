/** What every run of the task engine keeps. */
module TaskInvariants {
  import opened Options
  import opened Sequences
  import opened TaskStates

  /** Someone is responsible for the task: the enqueue coroutine, the queue, or a worker. */
  ghost predicate Attended(s: State, id: nat) {
    id in s.pending || id in s.queue || id in s.running.Values
  }

  /** The status a task has at the place where it is, once its handle is cancelled or not. */
  ghost predicate StandsAs(s: State, id: nat, status: Status) {
    && id in s.handles && id !in s.uncounted
    && s.handles[id].released == s.handles[id].cancelled
    && (id in s.tasks ==> s.tasks[id].status == if s.handles[id].cancelled then Cancelled else status)
    && (id !in s.tasks ==> s.handles[id].cancelled)
  }

  /** Registry, dictionary order and repository agree on the task; what the registry has dropped has ended,
      in memory and in the repository. */
  ghost predicate Booked(s: State, id: nat) {
    && (id in s.order <==> id in s.tasks) && (id in s.tasks ==> id in s.disk && id !in s.dropped)
    && (id in s.disk && id !in s.tasks ==> id in s.dropped && !Live(s.disk[id]))
    && (id in s.dropped ==> !Live(s.dropped[id]))
    && (id in s.tasks || id in s.dropped || id in s.handles || id in s.uncounted ==> id < s.nextId)
    && (id in s.tasks ==> s.disk[id].key == s.tasks[id].key && (Live(s.tasks[id]) ==> s.disk[id] == s.tasks[id]))
  }

  /** The task is at most at one place and its status fits the place; and it is not lost: a live task is
      attended or left to recovery, and a slot is held only by an attended task. */
  ghost predicate Placed(s: State, id: nat) {
    && (id in s.pending ==> id !in s.queue && id !in s.running.Values && StandsAs(s, id, Created))
    && (id in s.queue ==> id !in s.running.Values && StandsAs(s, id, Queued))
    && (id in s.running.Values ==> Object(s, id).Some? && StandsAs(s, id, Processing))
    && (id in s.resuming ==> id in s.uncounted && Object(s, id).Some?)
    && (id in s.tasks && Live(s.tasks[id]) ==> id in s.handles && (Attended(s, id) || id in s.uncounted))
    && (id in s.handles && !s.handles[id].released && id !in s.uncounted ==> Attended(s, id))
  }

  /** What holds of every id. */
  ghost predicate Good(s: State, id: nat) { Booked(s, id) && Placed(s, id) }

  ghost predicate OneWorkerEach(running: map<nat, nat>) {
    forall v, w :: v in running && w in running && v != w ==> running[v] != running[w]
  }

  ghost predicate CacheFits(s: State) {
    forall key :: key in s.cache && s.cache[key].1 in s.tasks ==> s.tasks[s.cache[key].1].key == key
  }

  ghost predicate Shape(s: State) {
    && (forall id: nat :: Good(s, id))
    && Distinct(s.order) && Distinct(s.queue) && OneWorkerEach(s.running) && CacheFits(s)
    && (forall key :: key in s.cache ==> s.cache[key].1 < s.nextId)
  }

  // ---------- places ----------

  lemma AppendIn(q: seq<nat>, id: nat)
    ensures forall x :: x in q + [id] <==> x in q || x == id
    ensures Distinct(q) && id !in q ==> Distinct(q + [id])
  {
  }

  lemma HeadOut(q: seq<nat>)
    requires q != [] && Distinct(q)
    ensures forall x :: x in q[1..] <==> x in q && x != q[0]
    ensures Distinct(q[1..])
  {
    assert q == [q[0]] + q[1..];
  }

  lemma WorkerIn(running: map<nat, nat>, w: nat, id: nat)
    requires w !in running
    ensures running[w := id].Values == running.Values + {id}
    ensures OneWorkerEach(running) && id !in running.Values ==> OneWorkerEach(running[w := id])
  {
    var r := running[w := id];
    forall x | x in running.Values + {id} ensures x in r.Values {
      if x == id {
        assert w in r && r[w] == id;
      } else {
        var v :| v in running && running[v] == x;
        assert v in r && r[v] == x;
      }
    }
  }

  lemma WorkerOut(running: map<nat, nat>, w: nat)
    requires w in running && OneWorkerEach(running)
    ensures (running - {w}).Values == running.Values - {running[w]}
    ensures OneWorkerEach(running - {w})
  {
    var r := running - {w};
    forall x | x in running.Values - {running[w]} ensures x in r.Values {
      var v :| v in running && running[v] == x;
      assert v in r && r[v] == x;
    }
  }

  // ---------- what a step leaves alone ----------

  /** The two states agree on all that `Placed` looks at. */
  ghost predicate SamePlace(s: State, t: State, x: nat) {
    && (x in t.pending <==> x in s.pending) && (x in t.queue <==> x in s.queue)
    && (x in t.running.Values <==> x in s.running.Values) && (x in t.resuming <==> x in s.resuming)
    && (x in t.uncounted <==> x in s.uncounted)
    && (x in t.tasks <==> x in s.tasks) && (x in s.tasks ==> t.tasks[x] == s.tasks[x])
    && (x in t.dropped <==> x in s.dropped)
    && (x in t.handles <==> x in s.handles) && (x in s.handles ==> t.handles[x] == s.handles[x])
  }

  lemma SameIsPlaced(s: State, t: State, x: nat)
    requires SamePlace(s, t, x) && Placed(s, x)
    ensures Placed(t, x)
  {
  }

  lemma StoreElsewhere(s: State, id: nat, status: Status, x: nat)
    requires x != id
    ensures SamePlace(s, Store(s, id, status), x)
  {
  }

  lemma ReleaseElsewhere(s: State, id: nat, x: nat)
    requires x != id
    ensures SamePlace(s, Release(s, id), x)
  {
  }

  /** A status may be set that ends the task or leaves a registered one alive. */
  lemma BookedAfterStore(s: State, id: nat, status: Status, x: nat)
    requires Booked(s, id) && Booked(s, x) && (Terminal(status) || id !in s.dropped)
    ensures Booked(Store(s, id, status), x)
  {
  }

  // ---------- the shape survives every event ----------

  lemma ShapeInitial(capacity: nat)
    ensures Shape(Initial(capacity))
  {
  }

  lemma ShapeRegister(s: State, key: string, now: nat)
    requires Shape(s)
    ensures Shape(Register(s, key, now))
  {
    var t := Register(s, key, now);
    assert Good(s, s.nextId);
    AppendIn(s.order, s.nextId);
    forall id: nat ensures Good(t, id) { assert Good(s, id); }
    forall k | k in t.cache && t.cache[k].1 in t.tasks ensures t.tasks[t.cache[k].1].key == k {
      if k in s.cache { assert Good(s, s.cache[k].1); }
    }
  }

  lemma ShapeCreate(s: State, key: string, now: nat)
    requires Shape(s)
    ensures Shape(Create(s, key, now).0)
  {
    var s1 := if key != "" then s.(cache := s.cache - {key}) else s;
    forall id: nat ensures Good(s1, id) { assert Good(s, id); }
    ShapeRegister(s1, key, now);
  }

  lemma ShapeEnqueue(s: State, id: nat, verdict: Verdict)
    requires Shape(s) && id in s.pending
    ensures Shape(Enqueue(s, id, verdict))
  {
    assert Good(s, id);
    AppendIn(s.queue, id);
    forall x: nat ensures Good(Enqueue(s, id, verdict), x) {
      assert Good(s, x);
      GoodAfterEnqueue(s, id, verdict, x);
    }
  }

  lemma GoodAfterEnqueue(s: State, id: nat, verdict: Verdict, x: nat)
    requires id in s.pending && Good(s, id) && Good(s, x)
    ensures Good(Enqueue(s, id, verdict), x)
  {
    BookedAfterEnqueue(s, id, verdict, x);
    if x != id {
      ElsewhereEnqueue(s, id, verdict, x);
      SameIsPlaced(s, Enqueue(s, id, verdict), x);
    } else {
      PlacedAfterEnqueue(s, id, verdict);
    }
  }

  lemma BookedAfterEnqueue(s: State, id: nat, verdict: Verdict, x: nat)
    requires Booked(s, id) && Booked(s, x)
    ensures Booked(Enqueue(s, id, verdict), x)
  {
    var s1 := s.(pending := s.pending - {id});
    assert Booked(s1, id) && Booked(s1, x);
    BookedAfterStore(s1, id, Failed, x);
    if id !in s.dropped { BookedAfterStore(s1, id, Queued, x); }
  }

  lemma ElsewhereEnqueue(s: State, id: nat, verdict: Verdict, x: nat)
    requires x != id
    ensures SamePlace(s, Enqueue(s, id, verdict), x)
  {
    var s1 := s.(pending := s.pending - {id});
    if verdict == Invalid {
      StoreElsewhere(s1, id, Failed, x);
      ReleaseElsewhere(Store(s1, id, Failed), id, x);
    } else {
      StoreElsewhere(s1, id, Queued, x);
      var s2 := Transition(s1, id, Queued);
      JoinElsewhere(s2, id, x);
    }
  }

  lemma JoinElsewhere(s: State, id: nat, x: nat)
    requires x != id
    ensures SamePlace(s, s.(queue := s.queue + [id]), x)
  {
    AppendIn(s.queue, id);
  }

  lemma PlacedAfterEnqueue(s: State, id: nat, verdict: Verdict)
    requires id in s.pending && Good(s, id)
    ensures Placed(Enqueue(s, id, verdict), id)
  {
    AppendIn(s.queue, id);
  }

  lemma ShapeTake(s: State, worker: nat)
    requires Shape(s) && s.queue != [] && worker !in s.running
    ensures Shape(Take(s, worker))
  {
    var id := s.queue[0];
    assert id in s.queue && Good(s, id);
    HeadOut(s.queue);
    WorkerIn(s.running, worker, id);
    forall x: nat ensures Good(Take(s, worker), x) {
      assert Good(s, x);
      GoodAfterTake(s, worker, x);
    }
  }

  lemma GoodAfterTake(s: State, worker: nat, x: nat)
    requires s.queue != [] && Distinct(s.queue) && worker !in s.running && Good(s, s.queue[0]) && Good(s, x)
    ensures Good(Take(s, worker), x)
  {
    BookedAfterTake(s, worker, x);
    if x != s.queue[0] {
      ElsewhereTake(s, worker, x);
      SameIsPlaced(s, Take(s, worker), x);
    } else {
      PlacedAfterTake(s, worker);
    }
  }

  lemma BookedAfterTake(s: State, worker: nat, x: nat)
    requires s.queue != [] && Booked(s, s.queue[0]) && Booked(s, x)
    ensures Booked(Take(s, worker), x)
  {
    var id, s1 := s.queue[0], s.(queue := s.queue[1..]);
    assert Booked(s1, id) && Booked(s1, x);
    if id !in s.dropped { BookedAfterStore(s1, id, Processing, x); }
  }

  lemma ElsewhereTake(s: State, worker: nat, x: nat)
    requires s.queue != [] && Distinct(s.queue) && worker !in s.running && x != s.queue[0]
    ensures SamePlace(s, Take(s, worker), x)
  {
    HeadOut(s.queue);
    var s1 := s.(queue := s.queue[1..]);
    assert SamePlace(s, s1, x);
    if s.queue[0] in s.tasks {
      StoreElsewhere(s1, s.queue[0], Processing, x);
      StartElsewhere(Transition(s1, s.queue[0], Processing), worker, s.queue[0], x);
    }
  }

  lemma StartElsewhere(s: State, worker: nat, id: nat, x: nat)
    requires worker !in s.running && x != id
    ensures SamePlace(s, s.(running := s.running[worker := id],
                            handles := if id in s.handles then s.handles else s.handles[id := Handle(false, false)]), x)
  {
    WorkerIn(s.running, worker, id);
  }

  lemma PlacedAfterTake(s: State, worker: nat)
    requires s.queue != [] && Distinct(s.queue) && worker !in s.running && Good(s, s.queue[0])
    ensures Placed(Take(s, worker), s.queue[0])
  {
    assert s.queue[0] in s.queue;
    HeadOut(s.queue);
    WorkerIn(s.running, worker, s.queue[0]);
  }

  lemma ShapeFinish(s: State, worker: nat, outcome: Outcome)
    requires Shape(s) && Enabled(s, EvFinish(worker, outcome))
    ensures Shape(Finish(s, worker, outcome))
  {
    assert s.running[worker] in s.running.Values && Good(s, s.running[worker]);
    WorkerOut(s.running, worker);
    forall x: nat ensures Good(Finish(s, worker, outcome), x) {
      assert Good(s, x);
      GoodAfterFinish(s, worker, outcome, x);
    }
  }

  lemma GoodAfterFinish(s: State, worker: nat, outcome: Outcome, x: nat)
    requires Enabled(s, EvFinish(worker, outcome)) && OneWorkerEach(s.running)
    requires s.running[worker] in s.running.Values && Good(s, s.running[worker]) && Good(s, x)
    ensures Good(Finish(s, worker, outcome), x)
  {
    BookedAfterPipeline(s, s.running[worker], outcome, x);
    BookedAfterRelease(AfterPipeline(s, s.running[worker], outcome), s.running[worker], x);
    if x != s.running[worker] {
      ElsewhereFinish(s, worker, outcome, x);
      SameIsPlaced(s, Finish(s, worker, outcome), x);
    } else {
      PlacedAfterFinish(s, worker, outcome);
    }
  }

  lemma BookedAfterRelease(s: State, id: nat, x: nat)
    requires Booked(s, x)
    ensures Booked(Release(s, id), x)
  {
  }

  lemma BookedAfterPipeline(s: State, id: nat, outcome: Outcome, x: nat)
    requires Booked(s, id) && Booked(s, x)
    ensures Booked(AfterPipeline(s, id, outcome), x)
  {
    var status := match outcome case Succeeds => Completed case Breaks => Failed case StopsOnCancel => Cancelled;
    BookedAfterStore(s, id, status, x);
  }

  lemma ElsewhereFinish(s: State, worker: nat, outcome: Outcome, x: nat)
    requires worker in s.running && OneWorkerEach(s.running) && x != s.running[worker]
    ensures SamePlace(s, Finish(s, worker, outcome), x)
  {
    var id := s.running[worker];
    var s1 := AfterPipeline(s, id, outcome);
    ElsewherePipeline(s, id, outcome, x);
    ReleaseElsewhere(s1, id, x);
    LeaveElsewhere(Release(s1, id), worker, x);
  }

  lemma ElsewherePipeline(s: State, id: nat, outcome: Outcome, x: nat)
    requires x != id
    ensures SamePlace(s, AfterPipeline(s, id, outcome), x) && AfterPipeline(s, id, outcome).running == s.running
  {
    var status := match outcome case Succeeds => Completed case Breaks => Failed case StopsOnCancel => Cancelled;
    StoreElsewhere(s, id, status, x);
  }

  lemma LeaveElsewhere(s: State, worker: nat, x: nat)
    requires worker in s.running && OneWorkerEach(s.running) && x != s.running[worker]
    ensures SamePlace(s, s.(running := s.running - {worker}), x)
  {
    WorkerOut(s.running, worker);
  }

  lemma PlacedAfterFinish(s: State, worker: nat, outcome: Outcome)
    requires Enabled(s, EvFinish(worker, outcome)) && OneWorkerEach(s.running)
    requires s.running[worker] in s.running.Values && Good(s, s.running[worker])
    ensures Placed(Finish(s, worker, outcome), s.running[worker])
  {
    WorkerOut(s.running, worker);
  }

  lemma ShapeCancel(s: State, id: nat)
    requires Shape(s)
    ensures Shape(Cancel(s, id))
  {
    assert Good(s, id);
    forall x: nat ensures Good(Cancel(s, id), x) {
      assert Good(s, x);
      GoodAfterCancel(s, id, x);
    }
  }

  lemma GoodAfterCancel(s: State, id: nat, x: nat)
    requires Good(s, id) && Good(s, x)
    ensures Good(Cancel(s, id), x)
  {
    BookedAfterCancel(s, id, x);
    if x != id {
      ElsewhereCancel(s, id, x);
      SameIsPlaced(s, Cancel(s, id), x);
    }
  }

  lemma BookedAfterCancel(s: State, id: nat, x: nat)
    requires Booked(s, id) && Booked(s, x)
    ensures Booked(Cancel(s, id), x)
  {
  }

  lemma ElsewhereCancel(s: State, id: nat, x: nat)
    requires x != id
    ensures SamePlace(s, Cancel(s, id), x)
  {
  }

  lemma {:induction false} WithoutIn(order: seq<nat>, ids: set<nat>)
    requires Distinct(order)
    ensures forall x :: x in Without(order, ids) <==> x in order && x !in ids
    ensures Distinct(Without(order, ids))
  {
    if order != [] {
      HeadOut(order);
      WithoutIn(order[1..], ids);
    }
  }

  lemma ShapeExpire(s: State, ids: set<nat>)
    requires Shape(s) && Enabled(s, EvExpire(ids))
    ensures Shape(Expire(s, ids))
  {
    var t := Expire(s, ids);
    WithoutIn(s.order, ids);
    forall x: nat ensures Good(t, x) { assert Good(s, x); }
  }

  lemma {:induction false} RequeueIn(disk: map<nat, Task>, plan: map<nat, Recovery>, order: seq<nat>)
    requires Distinct(order)
    ensures forall x :: x in RequeueList(disk, plan, order) <==> x in order && Requeued(disk, plan, x)
    ensures Distinct(RequeueList(disk, plan, order))
  {
    if order != [] {
      HeadOut(order);
      RequeueIn(disk, plan, order[1..]);
    }
  }

  lemma ShapeRestart(s: State, order: seq<nat>, plan: map<nat, Recovery>)
    requires Shape(s) && Enabled(s, EvRestart(order, plan))
    ensures Shape(Restart(s, order, plan))
  {
    var t := Restart(s, order, plan);
    RequeueIn(s.disk, plan, order);
    forall x: nat ensures Good(t, x) { assert Good(s, x); }
  }

  lemma ShapeResume(s: State, id: nat, end: ResumeEnd)
    requires Shape(s) && Enabled(s, EvResume(id, end))
    ensures Shape(Resume(s, id, end))
  {
    assert Good(s, id);
    forall x: nat ensures Good(Resume(s, id, end), x) {
      assert Good(s, x);
      GoodAfterResume(s, id, end, x);
    }
  }

  lemma GoodAfterResume(s: State, id: nat, end: ResumeEnd, x: nat)
    requires Enabled(s, EvResume(id, end)) && Good(s, id) && Good(s, x)
    ensures Good(Resume(s, id, end), x)
  {
    var s1 := s.(resuming := s.resuming - {id});
    assert Booked(s1, id) && Booked(s1, x);
    if end.Settled? {
      BookedAfterStore(s1, id, end.status, x);
    }
    if x != id {
      ElsewhereResume(s, id, end, x);
      SameIsPlaced(s, Resume(s, id, end), x);
    }
  }

  lemma ElsewhereResume(s: State, id: nat, end: ResumeEnd, x: nat)
    requires x != id
    ensures SamePlace(s, Resume(s, id, end), x)
  {
    if end.Settled? { StoreElsewhere(s.(resuming := s.resuming - {id}), id, end.status, x); }
  }

  lemma ShapeSave(s: State, id: nat)
    requires Shape(s)
    ensures Shape(Save(s, id))
  {
    var t := Save(s, id);
    assert Good(s, id);
    forall x: nat ensures Good(t, x) { assert Good(s, x); }
  }

  lemma ShapeStep(s: State, e: Event)
    requires Shape(s) && Enabled(s, e)
    ensures Shape(Next(s, e))
  {
    match e
    case EvSubmit(key, now) => ShapeCreate(s, key, now);
    case EvRetryOntology(key, force, now) => ShapeCreate(s, key, now);
    case EvDirectCreate(key, now) => ShapeCreate(s, key, now);
    case EvEnqueue(id, verdict) => ShapeEnqueue(s, id, verdict);
    case EvTake(worker) => ShapeTake(s, worker);
    case EvFinish(worker, outcome) => ShapeFinish(s, worker, outcome);
    case EvCheckpoint(worker) => ShapeSave(s, s.running[worker]);
    case EvCancel(id) => ShapeCancel(s, id);
    case EvExpire(ids) => ShapeExpire(s, ids);
    case EvRestart(order, plan) => ShapeRestart(s, order, plan);
    case EvResumeSave(id) => ShapeSave(s, id);
    case EvResume(id, end) => ShapeResume(s, id, end);
  }
}
