/** The task engine as an object: each method takes the step of the state machine. */
module TaskManagers {
  import opened Options
  import opened Sequences
  import opened TaskStates
  import opened Decimals
  import opened Texts

  class TaskManager {
    var tasks: map<nat, Task>
    var order: seq<nat>
    var disk: map<nat, Task>
    var dropped: map<nat, Task>
    var handles: map<nat, Handle>
    var pending: set<nat>
    var queue: seq<nat>
    var running: map<nat, nat>
    var resuming: set<nat>
    ghost var uncounted: set<nat>
    var cache: map<string, (nat, nat)>
    var active: nat
    var capacity: nat
    var nextId: nat

    ghost function Snapshot(): State
      reads this
    {
      State(tasks, order, disk, dropped, handles, pending, queue, running, resuming, uncounted, cache, active,
            capacity, nextId)
    }

    constructor (capacity: nat)
      ensures Snapshot() == Initial(capacity)
    {
      tasks, order, disk, dropped, handles := map[], [], map[], map[], map[];
      pending, queue, running, resuming, uncounted, cache, active := {}, [], map[], {}, {}, map[], 0;
      this.capacity, nextId := capacity, 0;
    }

    method ReleaseSlot(id: nat)
      modifies this
      ensures Snapshot() == Release(old(Snapshot()), id)
    {
      if id in handles && !handles[id].released {
        handles := handles[id := handles[id].(released := true)];
        active := if active > 0 then active - 1 else 0;
      }
    }

    method SetStatus(id: nat, status: Status)
      modifies this
      ensures Snapshot() == Store(old(Snapshot()), id, status)
    {
      if id in tasks {
        tasks := tasks[id := tasks[id].(status := status)];
        disk := disk[id := tasks[id]];
      } else if id in dropped {
        dropped := dropped[id := dropped[id].(status := status)];
        disk := disk[id := dropped[id]];
      }
    }

    /** `_repo.save` of a task object a coroutine holds */
    method SaveTask(id: nat)
      modifies this
      ensures Snapshot() == Save(old(Snapshot()), id)
    {
      if id in tasks {
        disk := disk[id := tasks[id]];
      } else if id in dropped {
        disk := disk[id := dropped[id]];
      }
    }

    /** `_transition` */
    method MoveTo(id: nat, target: Status)
      modifies this
      ensures Snapshot() == Transition(old(Snapshot()), id, target)
    {
      if (id in tasks && Allowed(tasks[id].status, target))
         || (id !in tasks && id in dropped && Allowed(dropped[id].status, target)) {
        SetStatus(id, target);
      }
    }

    /** `_check_idempotency` */
    method CheckIdempotency(key: string, now: nat) returns (hit: Option<nat>)
      modifies this
      ensures hit == CachedTask(old(Snapshot()), key, now)
      ensures Snapshot() == if hit.Some? then old(Snapshot()) else old(Snapshot()).(cache := old(cache) - {key})
    {
      if key in cache && now < cache[key].0 && cache[key].1 in tasks && Live(tasks[cache[key].1]) {
        return Some(cache[key].1);
      }
      cache := cache - {key};
      return None;
    }

    /** Slot, registry, repository, handle, cache entry and enqueue coroutine of a new task */
    method RegisterTask(key: string, now: nat) returns (id: nat)
      modifies this
      ensures Snapshot() == Register(old(Snapshot()), key, now) && id == old(nextId)
    {
      id := nextId;
      active, nextId := active + 1, nextId + 1;
      Enter(id, Task(key, Created));
      if key != "" {
        cache := cache[key := (now + IDEMPOTENCY_TTL, id)];
      }
    }

    method Enter(id: nat, task: Task)
      modifies this
      ensures Snapshot() ==
              old(Snapshot()).(tasks := old(tasks)[id := task], order := old(order) + [id], disk := old(disk)[id := task],
                               handles := old(handles)[id := Handle(false, false)], pending := old(pending) + {id})
    {
      tasks, order, disk := tasks[id := task], order + [id], disk[id := task];
      handles := handles[id := Handle(false, false)];
      pending := pending + {id};
    }

    /** `create` */
    method CreateTask(key: string, now: nat) returns (r: SubmitResult)
      modifies this
      ensures (Snapshot(), r) == Create(old(Snapshot()), key, now)
    {
      if key != "" {
        var hit := CheckIdempotency(key, now);
        if hit.Some? {
          return Reused(hit.value, tasks[hit.value].status);
        }
      }
      if active >= capacity {
        return SlotsFull;
      }
      var id := RegisterTask(key, now);
      return Accepted(id);
    }

    /** `_reuse_or_create` */
    method ReuseOrCreate(key: string, now: nat) returns (r: SubmitResult)
      modifies this
      ensures (Snapshot(), r) == Submit(old(Snapshot()), key, now)
    {
      if key != "" {
        var i := 0;
        while i < |order|
          invariant 0 <= i <= |order| && Snapshot() == old(Snapshot())
          invariant FirstLive(Snapshot(), order, key) == FirstLive(Snapshot(), order[i..], key)
        {
          var id := order[i];
          assert order[i..][1..] == order[i + 1..];
          if id in tasks && tasks[id].key == key && !Terminal(tasks[id].status) {
            return Reused(id, tasks[id].status);
          }
          i := i + 1;
        }
      }
      r := CreateTask(key, now);
    }

    /** `handle_retry_ontology_extract` over the key of the document */
    method RetryOntologyExtract(tenant: string, kb: string, document: string, version: int, force: bool, now: nat)
      returns (r: SubmitResult)
      modifies this
      ensures (Snapshot(), r) == RetryOntology(old(Snapshot()), OntologyKey(tenant, kb, document, version), force, now)
    {
      var key := OntologyKey(tenant, kb, document, version);
      var i := 0;
      while i < |order|
        invariant 0 <= i <= |order| && Snapshot() == old(Snapshot())
        invariant FirstSettled(Snapshot(), order, key, force) == FirstSettled(Snapshot(), order[i..], key, force)
      {
        var id := order[i];
        assert order[i..][1..] == order[i + 1..];
        if id in tasks && tasks[id].key == key {
          if !Terminal(tasks[id].status) {
            return Reused(id, tasks[id].status);
          }
          if tasks[id].status == Completed && !force {
            return AlreadyCompleted(id);
          }
        }
        i := i + 1;
      }
      r := CreateTask(key, now);
    }

    /** `_validate_and_enqueue` */
    method ValidateAndEnqueue(id: nat, verdict: Verdict)
      modifies this
      ensures Snapshot() == Enqueue(old(Snapshot()), id, verdict)
    {
      pending := pending - {id};
      if id !in handles || handles[id].cancelled {
        return;
      }
      if verdict == Invalid {
        SetStatus(id, Failed);
        ReleaseSlot(id);
        return;
      }
      MoveTo(id, Queued);
      queue := queue + [id];
    }

    /** `_worker_loop` up to the start of the pipeline */
    method WorkerTake(worker: nat)
      requires queue != []
      modifies this
      ensures Snapshot() == TaskStates.Take(old(Snapshot()), worker)
    {
      var id := queue[0];
      queue := queue[1..];
      if id !in tasks {
        return;
      }
      if id !in handles {
        handles := handles[id := Handle(false, false)];
      }
      MoveTo(id, Processing);
      running := running[worker := id];
    }

    /** The end of the pipeline and the `finally` of the worker loop */
    method WorkerFinish(worker: nat, outcome: Outcome)
      requires worker in running
      modifies this
      ensures Snapshot() == Finish(old(Snapshot()), worker, outcome)
    {
      var id := running[worker];
      match outcome {
        case Succeeds => SetStatus(id, Completed);
        case Breaks => SetStatus(id, Failed);
        case StopsOnCancel => MoveTo(id, Cancelled);
      }
      ReleaseSlot(id);
      running := running - {worker};
    }

    /** `cancel` */
    method CancelTask(id: nat)
      modifies this
      ensures Snapshot() == Cancel(old(Snapshot()), id)
    {
      if id !in tasks || Terminal(tasks[id].status) {
        return;
      }
      tasks := tasks[id := tasks[id].(status := Cancelled)];
      if id in handles {
        handles := handles[id := handles[id].(cancelled := true)];
        ReleaseSlot(id);
      }
    }

    /** One round of `_cleanup_loop` over the tasks that are old enough */
    method CleanUp(ids: set<nat>)
      requires forall id :: id in ids ==> id in tasks
      modifies this
      ensures Snapshot() == Expire(old(Snapshot()), ids)
    {
      var kept := Remaining(order, ids);
      dropped := dropped + map id | id in ids && id in tasks :: tasks[id];
      tasks, order, disk := tasks - ids, kept, disk - ids;
    }

    static method Remaining(order: seq<nat>, ids: set<nat>) returns (kept: seq<nat>)
      ensures kept == Without(order, ids)
    {
      kept := [];
      var i := 0;
      while i < |order|
        invariant 0 <= i <= |order|
        invariant kept + Without(order[i..], ids) == Without(order, ids)
      {
        var id := order[i];
        assert order[i..][0] == id && order[i..][1..] == order[i + 1..];
        if id !in ids {
          Associate(kept, [id], Without(order[i + 1..], ids));
          kept := kept + [id];
        } else {
          assert [] + Without(order[i + 1..], ids) == Without(order[i + 1..], ids);
        }
        i := i + 1;
      }
      assert kept + [] == kept;
    }

    /** A resume coroutine comes to its end. */
    method FinishResume(id: nat, end: ResumeEnd)
      modifies this
      ensures Snapshot() == Resume(old(Snapshot()), id, end)
    {
      resuming := resuming - {id};
      match end {
        case Settled(status) => SetStatus(id, status);
        case StillPending => SaveTask(id);
        case BrokenOff =>
      }
    }

    /** One persisted task read back by `start` */
    method RecoverTask(id: nat, t: Task, r: Recovery)
      modifies this
      ensures Snapshot() == RecoverOne(old(Snapshot()), id, t, r)
    {
      tasks := tasks[id := t];
      if r == GiveUp {
        SetStatus(id, Failed);
      } else if !Terminal(t.status) {
        handles := handles[id := Handle(false, false)];
        if r == ResumeLater {
          resuming, uncounted := resuming + {id}, uncounted + {id};
        } else {
          QueueAgain(id);
        }
      }
    }

    method QueueAgain(id: nat)
      modifies this
      ensures Snapshot() == QueuedAgain(old(Snapshot()), id)
    {
      SetStatus(id, Queued);
      active := active + 1;
      queue := queue + [id];
    }

    /** The memory of a new process */
    method Forget(loaded: seq<nat>)
      modifies this
      ensures Snapshot() == Forgotten(old(Snapshot()), loaded)
    {
      ForgetWork();
      tasks, order, dropped, handles, cache, active := map[], loaded, map[], map[], map[], 0;
    }

    method ForgetWork()
      modifies this
      ensures Snapshot() ==
              old(Snapshot()).(pending := {}, queue := [], running := map[], resuming := {}, uncounted := {})
    {
      pending, queue, running, resuming, uncounted := {}, [], map[], {}, {};
    }

    /** `start` in a new process: the repository is read in the given order. */
    method Start(loaded: seq<nat>, plan: map<nat, Recovery>)
      requires Distinct(loaded) && forall id :: id in loaded <==> id in disk
      modifies this
      ensures Snapshot() == Restart(old(Snapshot()), loaded, plan)
    {
      ghost var s := Snapshot();
      Forget(loaded);
      ghost var t := Snapshot();
      PartlyStart(s, loaded, plan);
      var i := 0;
      while i < |loaded|
        invariant 0 <= i <= |loaded| && Snapshot() == t && Partly(s, loaded, plan, i, t)
      {
        var id := loaded[i];
        PartlyStep(s, loaded, plan, i, t);
        t := RecoverOne(t, id, t.disk[id], PlanFor(plan, id));
        RecoverTask(id, disk[id], PlanFor(plan, id));
        i := i + 1;
      }
      PartlyDone(s, loaded, plan, t);
    }
  }

  function Forgotten(s: State, loaded: seq<nat>): State {
    s.(tasks := map[], order := loaded, dropped := map[], handles := map[], pending := {}, queue := [], running := map[],
       resuming := {}, uncounted := {}, cache := map[], active := 0)
  }

  function RecoverOne(s: State, id: nat, t: Task, r: Recovery): State {
    var s1 := s.(tasks := s.tasks[id := t]);
    if r == GiveUp then Store(s1, id, Failed)
    else if !Live(t) then s1
    else
      var s2 := s1.(handles := s1.handles[id := Handle(false, false)]);
      if r == ResumeLater then s2.(resuming := s2.resuming + {id}, uncounted := s2.uncounted + {id})
      else QueuedAgain(s2, id)
  }

  function QueuedAgain(s: State, id: nat): State {
    var t := Store(s, id, Queued);
    t.(active := t.active + 1, queue := t.queue + [id])
  }

  ghost predicate PartlyBooks(s: State, order: seq<nat>, plan: map<nat, Recovery>, i: nat, t: State)
    requires i <= |order|
  {
    && (forall id :: id in t.disk <==> id in s.disk)
    && (forall id :: id in t.tasks <==> id in s.disk && id in order[..i])
    && (forall id :: id in t.tasks ==> t.tasks[id] == Recovered(s.disk[id], PlanFor(plan, id)))
    && (forall id :: id in t.disk ==> t.disk[id] == if id in t.tasks then t.tasks[id] else s.disk[id])
  }

  ghost predicate PartlyHandles(s: State, plan: map<nat, Recovery>, t: State) {
    && (forall id :: id in t.handles <==> id in t.tasks && (Requeued(s.disk, plan, id) || Resumed(s.disk, plan, id)))
    && (forall id :: id in t.handles ==> t.handles[id] == Handle(false, false))
    && (forall id :: id in t.resuming <==> id in t.tasks && Resumed(s.disk, plan, id))
    && t.uncounted == t.resuming
  }

  ghost predicate PartlyQueued(s: State, order: seq<nat>, plan: map<nat, Recovery>, i: nat, t: State)
    requires i <= |order|
  {
    && t.queue + RequeueList(s.disk, plan, order[i..]) == RequeueList(s.disk, plan, order)
    && t.active == |t.queue|
    && t.order == order && t.dropped == map[] && t.pending == {} && t.running == map[] && t.cache == map[]
    && t.capacity == s.capacity && t.nextId == s.nextId
  }

  /** t is s restarted as far as the first i persisted tasks. */
  ghost predicate Partly(s: State, order: seq<nat>, plan: map<nat, Recovery>, i: nat, t: State)
    requires i <= |order|
  {
    PartlyBooks(s, order, plan, i, t) && PartlyHandles(s, plan, t) && PartlyQueued(s, order, plan, i, t)
  }

  lemma PartlyStart(s: State, order: seq<nat>, plan: map<nat, Recovery>)
    ensures Partly(s, order, plan, 0, Forgotten(s, order))
  {
    assert order[0..] == order;
    assert [] + RequeueList(s.disk, plan, order) == RequeueList(s.disk, plan, order);
  }

  lemma BooksStep(s: State, order: seq<nat>, plan: map<nat, Recovery>, i: nat, t: State)
    requires i < |order| && Distinct(order) && order[i] in s.disk && PartlyBooks(s, order, plan, i, t)
    ensures var id := order[i];
            id in t.disk && id !in t.tasks && t.disk[id] == s.disk[id]
            && PartlyBooks(s, order, plan, i + 1, RecoverOne(t, id, s.disk[id], PlanFor(plan, id)))
  {
    var id := order[i];
    var task := Recovered(s.disk[id], PlanFor(plan, id));
    InPrefix(order, i);
    var u := RecoverOne(t, id, s.disk[id], PlanFor(plan, id));
    assert u.tasks == t.tasks[id := task] && u.disk == t.disk[id := task] by { RecoverOneBooks(t, id, s.disk[id], PlanFor(plan, id)); }
  }

  lemma RecoverOneBooks(t: State, id: nat, task: Task, r: Recovery)
    requires id in t.disk && t.disk[id] == task
    ensures var u := RecoverOne(t, id, task, r);
            u.tasks == t.tasks[id := Recovered(task, r)] && u.disk == t.disk[id := Recovered(task, r)]
  {
  }

  lemma InPrefix(order: seq<nat>, i: nat)
    requires i < |order| && Distinct(order)
    ensures order[i] !in order[..i] && forall id :: id in order[..i + 1] <==> id in order[..i] || id == order[i]
  {
    assert order[..i + 1] == order[..i] + [order[i]];
  }

  lemma HandlesStep(s: State, plan: map<nat, Recovery>, id: nat, t: State)
    requires id in s.disk && id !in t.tasks && PartlyHandles(s, plan, t)
    ensures PartlyHandles(s, plan, RecoverOne(t, id, s.disk[id], PlanFor(plan, id)))
  {
    var u := RecoverOne(t, id, s.disk[id], PlanFor(plan, id));
    RecoverOneHandles(s, plan, id, t);
    assert forall x :: x in u.tasks.Keys <==> x == id || x in t.tasks.Keys;
  }

  lemma RecoverOneHandles(s: State, plan: map<nat, Recovery>, id: nat, t: State)
    requires id in s.disk
    ensures var u := RecoverOne(t, id, s.disk[id], PlanFor(plan, id));
            var resumed := Resumed(s.disk, plan, id);
            && u.tasks.Keys == t.tasks.Keys + {id}
            && u.handles == (if Requeued(s.disk, plan, id) || resumed then t.handles[id := Handle(false, false)] else t.handles)
            && u.resuming == (if resumed then t.resuming + {id} else t.resuming)
            && u.uncounted == (if resumed then t.uncounted + {id} else t.uncounted)
  {
    RecoverOneFields(t, id, s.disk[id], PlanFor(plan, id));
  }

  lemma RecoverOneFields(t: State, id: nat, task: Task, r: Recovery)
    ensures var u := RecoverOne(t, id, task, r);
            var resumed := Live(task) && r == ResumeLater;
            && u.tasks.Keys == t.tasks.Keys + {id}
            && u.handles == (if Live(task) && r != GiveUp then t.handles[id := Handle(false, false)] else t.handles)
            && u.resuming == (if resumed then t.resuming + {id} else t.resuming)
            && u.uncounted == (if resumed then t.uncounted + {id} else t.uncounted)
  {
  }

  lemma QueuedStep(s: State, order: seq<nat>, plan: map<nat, Recovery>, i: nat, t: State)
    requires i < |order| && order[i] in s.disk && PartlyQueued(s, order, plan, i, t)
    ensures PartlyQueued(s, order, plan, i + 1, RecoverOne(t, order[i], s.disk[order[i]], PlanFor(plan, order[i])))
  {
    var id, rest := order[i], RequeueList(s.disk, plan, order[i + 1..]);
    assert order[i..][0] == id && order[i..][1..] == order[i + 1..];
    assert (t.queue + [id]) + rest == t.queue + ([id] + rest) && [] + rest == rest;
  }

  lemma PartlyStep(s: State, order: seq<nat>, plan: map<nat, Recovery>, i: nat, t: State)
    requires i < |order| && Distinct(order) && order[i] in s.disk && Partly(s, order, plan, i, t)
    ensures order[i] in t.disk
    ensures Partly(s, order, plan, i + 1, RecoverOne(t, order[i], t.disk[order[i]], PlanFor(plan, order[i])))
  {
    BooksStep(s, order, plan, i, t);
    HandlesStep(s, plan, order[i], t);
    QueuedStep(s, order, plan, i, t);
  }

  lemma PartlyDone(s: State, order: seq<nat>, plan: map<nat, Recovery>, t: State)
    requires Partly(s, order, plan, |order|, t) && forall id :: id in order <==> id in s.disk
    ensures t == Restart(s, order, plan)
  {
    assert order[|order|..] == [];
    assert t.queue + [] == t.queue;
    BooksDone(s, order, plan, t);
  }

  lemma BooksDone(s: State, order: seq<nat>, plan: map<nat, Recovery>, t: State)
    requires PartlyBooks(s, order, plan, |order|, t) && PartlyHandles(s, plan, t) && forall id :: id in order <==> id in s.disk
    ensures var r := Restart(s, order, plan);
            t.tasks == r.tasks && t.disk == r.disk && t.handles == r.handles && t.resuming == r.resuming
  {
    assert order[..|order|] == order;
  }

  // ---------- the ontology key ----------

  /** `ontology:{tenant}:{kb}:{document}:{schema_version}` */
  function OntologyKey(tenant: string, kb: string, document: string, version: int): string {
    "ontology:" + (tenant + (":" + (kb + (":" + (document + (":" + Signed(version)))))))
  }

  /** Two documents share a key exactly when their schema versions agree and tenant, knowledge base and document
      id, written one behind the other with colons, are the same text. */
  lemma OntologyKeyClashIff(tenant: string, kb: string, document: string, version: int,
                            tenant': string, kb': string, document': string, version': int)
    ensures OntologyKey(tenant, kb, document, version) == OntologyKey(tenant', kb', document', version') <==>
            && tenant + (":" + (kb + (":" + document))) == tenant' + (":" + (kb' + (":" + document')))
            && version == version'
  {
    var p, p' := tenant + (":" + (kb + (":" + document))), tenant' + (":" + (kb' + (":" + document')));
    KeyParts(tenant, kb, document, version);
    KeyParts(tenant', kb', document', version');
    if OntologyKey(tenant, kb, document, version) == OntologyKey(tenant', kb', document', version') {
      SignedColonFree(version);
      SignedColonFree(version');
      CutLast(p, p', Signed(version), Signed(version'));
      SignedInjective(version, version');
    }
  }

  lemma KeyParts(tenant: string, kb: string, document: string, version: int)
    ensures var p := tenant + (":" + (kb + (":" + document)));
            var key := OntologyKey(tenant, kb, document, version);
            key == "ontology:" + (p + (":" + Signed(version))) && key[9..] == p + (":" + Signed(version))
  {
    var v := ":" + Signed(version);
    ShiftColon(kb, document, v);
    ShiftColon(tenant, kb + (":" + document), v);
  }

  lemma ShiftColon(a: string, b: string, c: string)
    ensures (a + (":" + b)) + c == a + (":" + (b + c))
  {
  }

  /** Documents of different tenants, knowledge bases, ids or schema versions have different keys,
      when tenant and knowledge base hold no colon; the document id may hold any. */
  lemma OntologyKeyInjective(tenant: string, kb: string, document: string, version: int,
                             tenant': string, kb': string, document': string, version': int)
    requires ColonFree(tenant) && ColonFree(kb) && ColonFree(tenant') && ColonFree(kb')
    requires OntologyKey(tenant, kb, document, version) == OntologyKey(tenant', kb', document', version')
    ensures tenant == tenant' && kb == kb' && document == document' && version == version'
  {
    OntologyKeyClashIff(tenant, kb, document, version, tenant', kb', document', version');
    CutFirst(tenant, tenant', kb + (":" + document), kb' + (":" + document'));
    CutFirst(kb, kb', document, document');
  }

  /** With a colon in the tenant two documents may share a key. */
  lemma OntologyKeyCollision(document: string, version: int)
    ensures OntologyKey("a:b", "c", document, version) == OntologyKey("a", "b:c", document, version)
  {
    assert "a:b" + (":" + ("c" + (":" + document))) == "a" + (":" + ("b:c" + (":" + document)));
    OntologyKeyClashIff("a:b", "c", document, version, "a", "b:c", document, version);
  }
}
