/** Runs that show where the guarantees of the task engine end. */
module TaskExamples {
  import opened Options
  import opened TaskStates
  import opened TaskInvariants
  import opened TaskRuns
  import opened TaskSlots

  lemma {:induction false} Extend(s: State, es: seq<Event>, t: State, e: Event)
    requires Reaches(s, es, t) && Enabled(t, e)
    ensures Reaches(s, es + [e], Next(t, e))
    decreases |es|
  {
    if es == [] {
      assert [e][1..] == [];
      assert es + [e] == [e];
    } else {
      Extend(Next(s, es[0]), es[1..], t, e);
      assert (es + [e])[1..] == es[1..] + [e];
    }
  }

  lemma SubmitFirst(key: string, capacity: nat) returns (s: State)
    requires key != "" && capacity > 0
    ensures s == Register(Initial(capacity), key, 0).(cache := map[key := (IDEMPOTENCY_TTL, 0)])
    ensures Reaches(Initial(capacity), [EvSubmit(key, 0)], s)
  {
    s := Next(Initial(capacity), EvSubmit(key, 0));
    Extend(Initial(capacity), [], Initial(capacity), EvSubmit(key, 0));
    assert [] + [EvSubmit(key, 0)] == [EvSubmit(key, 0)];
    assert (map[] - {key})[key := (IDEMPOTENCY_TTL, 0)] == map[key := (IDEMPOTENCY_TTL, 0)];
  }

  lemma CancelAndSubmitAgain(k: string, capacity: nat) returns (es: seq<Event>, s: State)
    requires k != "" && capacity > 0
    ensures Reaches(Initial(capacity), es, s) && Submits(es)
    ensures s.tasks == map[0 := Task(k, Cancelled), 1 := Task(k, Created)]
    ensures s.disk == map[0 := Task(k, Created), 1 := Task(k, Created)] && s.capacity == capacity
  {
    var s1 := SubmitFirst(k, capacity);
    var s2 := Next(s1, EvCancel(0));
    Extend(Initial(capacity), [EvSubmit(k, 0)], s1, EvCancel(0));
    assert s2.tasks == map[0 := Task(k, Cancelled)] && s2.order == [0] && s2.active == 0 && s2.nextId == 1;
    assert FirstLive(s2, [0], k).None? by { assert [0][1..] == []; }
    s := Next(s2, EvSubmit(k, 1));
    es := [EvSubmit(k, 0)] + [EvCancel(0)];
    Extend(Initial(capacity), es, s2, EvSubmit(k, 1));
    es := es + [EvSubmit(k, 1)];
  }

  lemma RestartBoth(s: State, k: string)
    requires s.disk == map[0 := Task(k, Created), 1 := Task(k, Created)]
    ensures Enabled(s, EvRestart([0, 1], map[]))
    ensures var t := Restart(s, [0, 1], map[]);
            t.tasks == map[0 := Task(k, Queued), 1 := Task(k, Queued)] && t.active == 2 && t.capacity == s.capacity
  {
    assert [0, 1][1..] == [1] && [1][1..] == [];
    assert Requeued(s.disk, map[], 0) && Requeued(s.disk, map[], 1);
    assert RequeueList(s.disk, map[], [1]) == [1];
  }

  /** A cancellation is not saved: after a restart the cancelled task lives again beside the one that
      replaced it. */
  lemma CancelledTaskReturns() returns (es: seq<Event>, t: State)
    ensures Reaches(Initial(2), es, t) && Submits(es) && !UniqueKeys(t)
  {
    var e := EvRestart([0, 1], map[]);
    var s;
    es, s := CancelAndSubmitAgain("k", 2);
    RestartBoth(s, "k");
    Extend(Initial(2), es, s, e);
    t := Restart(s, [0, 1], map[]);
    es := es + [e];
    assert SameKey(t.tasks, 0, 1) && Live(t.tasks[0]) && Live(t.tasks[1]);
  }

  /** For the same reason a restart may take more slots than there are. */
  lemma RestartOverfills() returns (es: seq<Event>, t: State)
    ensures Reaches(Initial(1), es, t) && t.active == 2 && t.capacity == 1
  {
    var e := EvRestart([0, 1], map[]);
    var s;
    es, s := CancelAndSubmitAgain("k", 1);
    RestartBoth(s, "k");
    Extend(Initial(1), es, s, e);
    t := Restart(s, [0, 1], map[]);
    es := es + [e];
  }

  lemma CancelRecovered() returns (es: seq<Event>, s: State)
    ensures Reaches(Initial(2), es, s) && EvCancel(0) in es
    ensures s.tasks == map[0 := Task("k", Cancelled)] && s.resuming == {0}
    ensures s.disk == map[0 := Task("k", Created)]
  {
    var s0, e := Initial(2), EvCancel(0);
    es, s0 := RecoverForResume("k");
    Extend(Initial(2), es, s0, e);
    s := Next(s0, e);
    es := es + [e];
  }

  lemma CancelWhileResuming() returns (es: seq<Event>, s: State)
    ensures Reaches(Initial(2), es, s) && EvCancel(0) in es
    ensures s.disk == map[0 := Task("k", Cancelled)]
  {
    var s1, f := Initial(2), EvResume(0, StillPending);
    es, s1 := CancelRecovered();
    Extend(Initial(2), es, s1, f);
    s := Next(s1, f);
    es := es + [f];
  }

  /** A cancellation during the polling of a recovered task is saved with the tracks still pending: the next
      restart finds it. */
  lemma CancellationSavedByResume() returns (es: seq<Event>, t: State)
    ensures Reaches(Initial(2), es, t) && t.tasks == map[0 := Task("k", Cancelled)] && EvCancel(0) in es
  {
    var s, e := Initial(2), EvRestart([0], map[]);
    es, s := CancelWhileResuming();
    Extend(Initial(2), es, s, e);
    t := Next(s, e);
    es := es + [e];
  }

  /** A direct creation after the cache entry has expired makes a second live task. */
  lemma DirectCreateDuplicates() returns (es: seq<Event>, t: State)
    ensures Reaches(Initial(2), es, t) && !UniqueKeys(t)
  {
    var k := "k";
    var s1 := SubmitFirst(k, 2);
    var e := EvDirectCreate(k, IDEMPOTENCY_TTL);
    t := Next(s1, e);
    Extend(Initial(2), [EvSubmit(k, 0)], s1, e);
    es := [EvSubmit(k, 0)] + [e];
    assert SameKey(t.tasks, 0, 1) && Live(t.tasks[0]) && Live(t.tasks[1]);
  }

  lemma RecoverForResume(k: string) returns (es: seq<Event>, s: State)
    requires k != ""
    ensures Reaches(Initial(2), es, s)
    ensures s == State(map[0 := Task(k, Created)], [0], map[0 := Task(k, Created)], map[], map[0 := Handle(false, false)],
                       {}, [], map[], {0}, {0}, map[], 0, 2, 1)
  {
    var plan := map[0 := ResumeLater];
    var s1 := SubmitFirst(k, 2);
    Extend(Initial(2), [EvSubmit(k, 0)], s1, EvRestart([0], plan));
    s := Next(s1, EvRestart([0], plan));
    es := [EvSubmit(k, 0)] + [EvRestart([0], plan)];
    assert RequeueList(s1.disk, plan, [0]) == [] by { assert [0][1..] == []; }
    assert Resumed(s1.disk, plan, 0);
    assert s.resuming == {0};
  }

  /** A resume coroutine that ends without a verdict strands its task, which then blocks its key. */
  lemma InconclusiveResumeStrands() returns (es: seq<Event>, t: State)
    ensures Reaches(Initial(2), es, t) && Stranded(t, 0) && t.tasks[0].key == "k" && UniqueKeys(t)
  {
    var s, e := Initial(2), EvResume(0, StillPending);
    es, s := RecoverForResume("k");
    Extend(Initial(2), es, s, e);
    t := Next(s, e);
    es := es + [e];
  }

  /** Cancelling a recovered task that never took a slot gives one back all the same: the count falls
      below the number of holders. */
  lemma RecoveredCancelUndercounts() returns (es: seq<Event>, t: State)
    ensures Reaches(Initial(2), es, t) && t.active == 0 && Holders(t) == {1}
  {
    var s, e := Initial(2), EvCancel(0);
    es, s := SubmitBesideRecovered("k", "other");
    Extend(Initial(2), es, s, e);
    t := Next(s, e);
    es := es + [e];
    assert t.handles[0].released && !t.handles[1].released;
  }

  lemma SubmitBesideRecovered(k: string, other: string) returns (es: seq<Event>, s: State)
    requires k != "" && other != "" && k != other
    ensures Reaches(Initial(2), es, s)
    ensures s.active == 1 && s.handles == map[0 := Handle(false, false), 1 := Handle(false, false)]
    ensures s.tasks == map[0 := Task(k, Created), 1 := Task(other, Created)] && s.uncounted == {0}
  {
    var s0, e := Initial(2), EvSubmit(other, 1);
    es, s0 := RecoverForResume(k);
    Extend(Initial(2), es, s0, e);
    assert FirstLive(s0, [0], other).None? by { assert [0][1..] == []; }
    s := Next(s0, e);
    es := es + [e];
  }

  lemma EnqueueFirst(k: string) returns (es: seq<Event>, s: State)
    requires k != ""
    ensures Reaches(Initial(2), es, s)
    ensures s.tasks == map[0 := Task(k, Queued)] && s.order == [0] && s.handles == map[0 := Handle(false, false)]
    ensures s.pending == {} && s.queue == [0] && s.running == map[] && s.active == 1 && s.capacity == 2 && s.nextId == 1
  {
    var s1 := SubmitFirst(k, 2);
    Extend(Initial(2), [EvSubmit(k, 0)], s1, EvEnqueue(0, Valid));
    s := Next(s1, EvEnqueue(0, Valid));
    es := [EvSubmit(k, 0)] + [EvEnqueue(0, Valid)];
  }

  lemma RunFirst(k: string) returns (es: seq<Event>, s: State)
    requires k != ""
    ensures Reaches(Initial(2), es, s)
    ensures s.tasks == map[0 := Task(k, Processing)] && s.order == [0] && s.handles == map[0 := Handle(false, false)]
    ensures s.pending == {} && s.queue == [] && s.running == map[0 := 0] && s.active == 1 && s.capacity == 2 && s.nextId == 1
  {
    var s2;
    es, s2 := EnqueueFirst(k);
    Extend(Initial(2), es, s2, EvTake(0));
    s := Next(s2, EvTake(0));
    es := es + [EvTake(0)];
  }

  lemma CancelRunningAndSubmit(k: string) returns (es: seq<Event>, s: State)
    requires k != ""
    ensures Reaches(Initial(2), es, s)
    ensures s.tasks == map[0 := Task(k, Cancelled), 1 := Task(k, Created)]
    ensures 1 in s.handles && s.handles[1] == Handle(false, false)
    ensures s.pending == {1} && s.queue == [] && s.running == map[0 := 0]
  {
    var s3;
    es, s3 := RunFirst(k);
    Extend(Initial(2), es, s3, EvCancel(0));
    var s4 := Next(s3, EvCancel(0));
    es := es + [EvCancel(0)];
    assert s4.tasks == map[0 := Task(k, Cancelled)] && s4.active == 0 && s4.order == [0];
    assert FirstLive(s4, [0], k).None? by { assert [0][1..] == []; }
    Extend(Initial(2), es, s4, EvSubmit(k, 1));
    s := Next(s4, EvSubmit(k, 1));
    es := es + [EvSubmit(k, 1)];
  }

  lemma EnqueueSecond(k: string) returns (es: seq<Event>, s: State)
    requires k != ""
    ensures Reaches(Initial(2), es, s)
    ensures s.tasks == map[0 := Task(k, Cancelled), 1 := Task(k, Queued)] && s.queue == [1] && s.running == map[0 := 0]
    ensures 1 in s.handles
  {
    var s5, e := Initial(2), EvEnqueue(1, Valid);
    es, s5 := CancelRunningAndSubmit(k);
    Extend(Initial(2), es, s5, e);
    s := Next(s5, e);
    es := es + [e];
  }

  /** A cancelled task keeps its worker until the pipeline notices, and its replacement may start
      meanwhile: two workers run tasks of one key, and the cancelled one may still complete. */
  lemma TwoPipelinesForOneKey() returns (es: seq<Event>, t: State)
    ensures Reaches(Initial(2), es, t) && t.running == map[0 := 0, 1 := 1]
    ensures t.tasks == map[0 := Task("k", Cancelled), 1 := Task("k", Processing)]
    ensures Enabled(t, EvFinish(0, Succeeds)) && Next(t, EvFinish(0, Succeeds)).tasks[0] == Task("k", Completed)
  {
    var s6, e := Initial(2), EvTake(1);
    es, s6 := EnqueueSecond("k");
    Extend(Initial(2), es, s6, e);
    t := Next(s6, e);
    es := es + [e];
  }
}
