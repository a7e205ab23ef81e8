/** The task engine behind the sidecar actions as a state machine: submission under an idempotency
    key, validation and queueing, workers, cancellation, expiry, and recovery after a restart.

    One event is what runs between two suspension points of the event loop.  The repository on disk
    is part of the state, because recovery starts from it. */
module TaskStates {
  import opened Options
  import opened Sequences

  datatype Status = Created | Queued | Processing | Completed | Failed | Cancelled

  predicate Terminal(s: Status) { s == Completed || s == Failed || s == Cancelled }

  /** STATE_TRANSITIONS */
  predicate Allowed(from: Status, to: Status) {
    match from
    case Created => to == Queued || to == Failed || to == Cancelled
    case Queued => to == Processing || to == Failed || to == Cancelled
    case Processing => to == Completed || to == Failed || to == Cancelled
    case _ => false
  }

  /** The empty key stands for no key. */
  datatype Task = Task(key: string, status: Status)

  predicate Live(t: Task) { !Terminal(t.status) }

  datatype Handle = Handle(cancelled: bool, released: bool)

  const IDEMPOTENCY_TTL: nat := 600

  datatype State = State(
    tasks: map<nat, Task>,              // registry
    order: seq<nat>,                    // ids of the registry in dictionary order
    disk: map<nat, Task>,               // repository
    dropped: map<nat, Task>,            // objects of expired tasks, which a coroutine may still hold
    handles: map<nat, Handle>,          // handle objects; that of an expired task may still be held
    pending: set<nat>,                  // tasks whose validate-and-enqueue coroutine has not run
    queue: seq<nat>,
    running: map<nat, nat>,             // worker -> task
    resuming: set<nat>,                 // recovered tasks with a resume coroutine
    uncounted: set<nat>,                // recovered tasks whose handle never took a slot
    cache: map<string, (nat, nat)>,     // key -> (expiry, task)
    active: nat,
    capacity: nat,
    nextId: nat)

  function Initial(capacity: nat): State {
    State(map[], [], map[], map[], map[], {}, [], map[], {}, {}, map[], 0, capacity, 0)
  }

  // ---------- steps ----------

  /** `TaskHandle.release_slot` */
  function Release(s: State, id: nat): State {
    if id !in s.handles || s.handles[id].released then s
    else s.(handles := s.handles[id := s.handles[id].(released := true)],
            active := if s.active > 0 then s.active - 1 else 0)
  }

  /** The task object, in the registry or dropped from it. */
  function Object(s: State, id: nat): Option<Task> {
    if id in s.tasks then Some(s.tasks[id]) else if id in s.dropped then Some(s.dropped[id]) else None
  }

  /** `_repo.save`: it writes the object, registered or not. */
  function Save(s: State, id: nat): State {
    if Object(s, id).None? then s else s.(disk := s.disk[id := Object(s, id).value])
  }

  /** A status set in the task object and saved. */
  function Store(s: State, id: nat, status: Status): State {
    if id in s.tasks then
      var t := s.tasks[id].(status := status);
      s.(tasks := s.tasks[id := t], disk := s.disk[id := t])
    else if id in s.dropped then
      var t := s.dropped[id].(status := status);
      s.(dropped := s.dropped[id := t], disk := s.disk[id := t])
    else s
  }

  /** `_transition`: a forbidden target leaves the task as it is. */
  function Transition(s: State, id: nat, target: Status): State {
    if Object(s, id).Some? && Allowed(Object(s, id).value.status, target) then Store(s, id, target) else s
  }

  datatype SubmitResult =
    | Reused(id: nat, status: Status)
    | AlreadyCompleted(id: nat)
    | Accepted(id: nat)
    | SlotsFull

  /** `_check_idempotency`: a live cached task, or None with the entry dropped. */
  function CachedTask(s: State, key: string, now: nat): Option<nat> {
    if key in s.cache && now < s.cache[key].0 && s.cache[key].1 in s.tasks && Live(s.tasks[s.cache[key].1])
    then Some(s.cache[key].1) else None
  }

  function Register(s: State, key: string, now: nat): State {
    var id := s.nextId;
    s.(tasks := s.tasks[id := Task(key, Created)],
       order := s.order + [id],
       disk := s.disk[id := Task(key, Created)],
       handles := s.handles[id := Handle(false, false)],
       pending := s.pending + {id},
       cache := if key != "" then s.cache[key := (now + IDEMPOTENCY_TTL, id)] else s.cache,
       active := s.active + 1,
       nextId := id + 1)
  }

  /** `TaskManager.create` */
  function Create(s: State, key: string, now: nat): (State, SubmitResult) {
    var hit := if key != "" then CachedTask(s, key, now) else None;
    if hit.Some? then (s, Reused(hit.value, s.tasks[hit.value].status))
    else
      var s1 := if key != "" then s.(cache := s.cache - {key}) else s;
      if s1.active >= s1.capacity then (s1, SlotsFull)
      else (Register(s1, key, now), Accepted(s1.nextId))
  }

  /** First live task of the key in dictionary order. */
  function FirstLive(s: State, order: seq<nat>, key: string): (r: Option<nat>)
    ensures r.Some? ==> r.value in order && r.value in s.tasks && s.tasks[r.value].key == key && Live(s.tasks[r.value])
    ensures r.None? ==> forall id :: id in order && id in s.tasks && s.tasks[id].key == key ==> !Live(s.tasks[id])
  {
    if order == [] then None
    else if order[0] in s.tasks && s.tasks[order[0]].key == key && Live(s.tasks[order[0]]) then Some(order[0])
    else FirstLive(s, order[1..], key)
  }

  /** `_reuse_or_create`, behind insert and retry */
  function Submit(s: State, key: string, now: nat): (State, SubmitResult) {
    var hit := if key != "" then FirstLive(s, s.order, key) else None;
    if hit.Some? then (s, Reused(hit.value, s.tasks[hit.value].status)) else Create(s, key, now)
  }

  /** First task of the key that is live, or completed when no retry is forced. */
  function FirstSettled(s: State, order: seq<nat>, key: string, force: bool): (r: Option<nat>)
    ensures r.Some? ==>
      (r.value in order && r.value in s.tasks && s.tasks[r.value].key == key
       && (Live(s.tasks[r.value]) || (s.tasks[r.value].status == Completed && !force)))
    ensures r.None? ==>
      (forall id :: id in order && id in s.tasks && s.tasks[id].key == key ==>
        !Live(s.tasks[id]) && (s.tasks[id].status == Completed ==> force))
  {
    if order == [] then None
    else if order[0] in s.tasks && s.tasks[order[0]].key == key
            && (Live(s.tasks[order[0]]) || (s.tasks[order[0]].status == Completed && !force)) then Some(order[0])
    else FirstSettled(s, order[1..], key, force)
  }

  /** `handle_retry_ontology_extract` */
  function RetryOntology(s: State, key: string, force: bool, now: nat): (State, SubmitResult) {
    match FirstSettled(s, s.order, key, force)
    case None => Create(s, key, now)
    case Some(id) =>
      (s, if s.tasks[id].status == Completed then AlreadyCompleted(id) else Reused(id, s.tasks[id].status))
  }

  datatype Verdict = Valid | Invalid

  /** `_validate_and_enqueue` */
  function Enqueue(s: State, id: nat, verdict: Verdict): State {
    var s1 := s.(pending := s.pending - {id});
    if id !in s.handles || s.handles[id].cancelled then s1
    else if verdict == Invalid then Release(Store(s1, id, Failed), id)
    else
      var s2 := Transition(s1, id, Queued);
      s2.(queue := s2.queue + [id])
  }

  /** A worker takes the head of the queue; a task no longer registered is dropped. */
  function Take(s: State, worker: nat): State
    requires s.queue != []
  {
    var id := s.queue[0];
    var s1 := s.(queue := s.queue[1..]);
    if id !in s.tasks then s1
    else
      var s2 := Transition(s1, id, Processing);
      s2.(running := s2.running[worker := id],
          handles := if id in s2.handles then s2.handles else s2.handles[id := Handle(false, false)])
  }

  datatype Outcome = Succeeds | Breaks | StopsOnCancel

  /** The pipeline sets its outcome whatever the status is, or stops because of a cancel. */
  function AfterPipeline(s: State, id: nat, outcome: Outcome): State {
    match outcome
    case Succeeds => Store(s, id, Completed)
    case Breaks => Store(s, id, Failed)
    case StopsOnCancel => Transition(s, id, Cancelled)
  }

  /** The pipeline ends, and the worker is free. */
  function Finish(s: State, worker: nat, outcome: Outcome): State
    requires worker in s.running
  {
    var id := s.running[worker];
    var s2 := Release(AfterPipeline(s, id, outcome), id);
    s2.(running := s2.running - {worker})
  }

  /** The pipeline saves the task while it runs. */
  function Checkpoint(s: State, worker: nat): State
    requires worker in s.running
  {
    Save(s, s.running[worker])
  }

  /** `cancel`: the registry is changed, the repository is not. */
  function Cancel(s: State, id: nat): State {
    if id !in s.tasks || !Live(s.tasks[id]) then s
    else
      var s1 := s.(tasks := s.tasks[id := s.tasks[id].(status := Cancelled)]);
      if id !in s1.handles then s1
      else Release(s1.(handles := s1.handles[id := s1.handles[id].(cancelled := true)]), id)
  }

  function Without(order: seq<nat>, ids: set<nat>): seq<nat> {
    if order == [] then []
    else (if order[0] in ids then [] else [order[0]]) + Without(order[1..], ids)
  }

  /** `_cleanup_loop` drops ended tasks by their age alone: a pipeline or a resume coroutine may still
      hold the object of one. */
  function Expire(s: State, ids: set<nat>): State {
    s.(tasks := s.tasks - ids, order := Without(s.order, ids), disk := s.disk - ids,
       dropped := s.dropped + map id | id in ids && id in s.tasks :: s.tasks[id])
  }

  datatype Recovery = Requeue | ResumeLater | GiveUp

  function PlanFor(plan: map<nat, Recovery>, id: nat): Recovery {
    if id in plan then plan[id] else Requeue
  }

  /** What recovery makes of a persisted task: giving up fails it, a live task is queued again or left
      to a resume coroutine. */
  function Recovered(t: Task, r: Recovery): Task {
    match r
    case GiveUp => t.(status := Failed)
    case Requeue => if Live(t) then t.(status := Queued) else t
    case ResumeLater => t
  }

  predicate Requeued(disk: map<nat, Task>, plan: map<nat, Recovery>, id: nat) {
    id in disk && Live(disk[id]) && PlanFor(plan, id) == Requeue
  }

  predicate Resumed(disk: map<nat, Task>, plan: map<nat, Recovery>, id: nat) {
    id in disk && Live(disk[id]) && PlanFor(plan, id) == ResumeLater
  }

  function RequeueList(disk: map<nat, Task>, plan: map<nat, Recovery>, order: seq<nat>): seq<nat> {
    if order == [] then []
    else (if Requeued(disk, plan, order[0]) then [order[0]] else []) + RequeueList(disk, plan, order[1..])
  }

  /** The process dies and `start` rebuilds its memory from the repository, read in any order. */
  function Restart(s: State, order: seq<nat>, plan: map<nat, Recovery>): State {
    var tasks := map id | id in s.disk :: Recovered(s.disk[id], PlanFor(plan, id));
    var resumed := set id | id in s.disk && Resumed(s.disk, plan, id);
    var queue := RequeueList(s.disk, plan, order);
    s.(tasks := tasks, order := order, disk := tasks, dropped := map[],
       handles := map id | id in s.disk && (Requeued(s.disk, plan, id) || Resumed(s.disk, plan, id)) :: Handle(false, false),
       pending := {}, queue := queue, running := map[], resuming := resumed, uncounted := resumed,
       cache := map[], active := |queue|)
  }

  /** How a resume coroutine ends: it settles the task, saves it with tracks still pending, or breaks off. */
  datatype ResumeEnd = Settled(status: Status) | StillPending | BrokenOff

  /** Without a verdict the status stays; what is pending is saved, a cancellation made meanwhile with it. */
  function Resume(s: State, id: nat, end: ResumeEnd): State {
    var s1 := s.(resuming := s.resuming - {id});
    match end
    case Settled(status) => Store(s1, id, status)
    case StillPending => Save(s1, id)
    case BrokenOff => s1
  }

  datatype Event =
    | EvSubmit(key: string, now: nat)
    | EvRetryOntology(key: string, force: bool, now: nat)
    | EvDirectCreate(key: string, now: nat)
    | EvEnqueue(id: nat, verdict: Verdict)
    | EvTake(worker: nat)
    | EvFinish(worker: nat, outcome: Outcome)
    | EvCheckpoint(worker: nat)
    | EvCancel(id: nat)
    | EvExpire(ids: set<nat>)
    | EvRestart(order: seq<nat>, plan: map<nat, Recovery>)
    | EvResumeSave(id: nat)
    | EvResume(id: nat, end: ResumeEnd)

  /** When an event can happen. */
  ghost predicate Enabled(s: State, e: Event) {
    match e
    case EvEnqueue(id, _) => id in s.pending
    case EvTake(worker) => s.queue != [] && worker !in s.running
    case EvFinish(worker, outcome) =>
      worker in s.running
      && (outcome == StopsOnCancel ==> s.running[worker] in s.handles && s.handles[s.running[worker]].cancelled)
    case EvCheckpoint(worker) => worker in s.running
    case EvExpire(ids) =>
      forall id :: id in ids ==> id in s.tasks && !Live(s.tasks[id])
    case EvRestart(order, _) => Distinct(order) && forall id :: id in order <==> id in s.disk
    case EvResumeSave(id) => id in s.resuming
    case EvResume(id, end) => id in s.resuming && (end.Settled? ==> end.status == Completed || end.status == Failed)
    case _ => true
  }

  ghost function Next(s: State, e: Event): State
    requires Enabled(s, e)
  {
    match e
    case EvSubmit(key, now) => Submit(s, key, now).0
    case EvRetryOntology(key, force, now) => RetryOntology(s, key, force, now).0
    case EvDirectCreate(key, now) => Create(s, key, now).0
    case EvEnqueue(id, verdict) => Enqueue(s, id, verdict)
    case EvTake(worker) => Take(s, worker)
    case EvFinish(worker, outcome) => Finish(s, worker, outcome)
    case EvCheckpoint(worker) => Checkpoint(s, worker)
    case EvCancel(id) => Cancel(s, id)
    case EvExpire(ids) => Expire(s, ids)
    case EvRestart(order, plan) => Restart(s, order, plan)
    case EvResumeSave(id) => Save(s, id)
    case EvResume(id, end) => Resume(s, id, end)
  }

  /** t is reached from s by the events, each enabled when it happens. */
  ghost predicate Reaches(s: State, es: seq<Event>, t: State)
    decreases |es|
  {
    if es == [] then s == t
    else Enabled(s, es[0]) && Reaches(Next(s, es[0]), es[1..], t)
  }
}
