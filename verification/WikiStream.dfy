/** The event stream of a Wiki search: it polls a session, shows its changes, and cleans up on every exit. */
module WikiStream {
  import opened Options

  const ROUNDS: nat := 1200

  datatype Presence = Here | Gone | Cut

  /** A poll's answer; a missing part raises when it is used. */
  datatype Poll = Raises | State(status: string, events: Option<string>, result: Option<string>, error: Option<string>)

  /** What a progress frame shows. */
  datatype View = View(events: string, status: string)

  datatype Frame = Opening(session: string) | Progress(view: View) | Heartbeat | Complete(result: string) | Error(message: string)

  /** The outside, by round: whether the browser is there, the poll's answer, whether the pause ends
      undisturbed; and whether the consumer leaves when it has got its n-th frame. */
  datatype World = World(presence: nat -> Presence, poll: nat -> Poll, awake: nat -> bool, leaves: nat -> bool)

  const TIMED_OUT := Error("Wiki search timed out")

  predicate Terminal(p: Poll) { p.State? && (p.status == "done" || p.status == "failed" || p.status == "cancelled") }

  /** A round that shows its state and leads to a pause. */
  predicate Running(w: World, i: nat) {
    w.presence(i).Here? && w.poll(i).State? && !Terminal(w.poll(i)) && w.poll(i).events.Some?
  }

  function ViewOf(p: Poll): View
    requires p.State? && p.events.Some?
  {
    View(p.events.value, p.status)
  }

  // ---------- what a run shows ----------

  /** What the last progress frame shows. */
  function Shown(frames: seq<Frame>): Option<View> {
    if frames == [] then None
    else if frames[|frames| - 1].Progress? then Some(frames[|frames| - 1].view)
    else Shown(frames[..|frames| - 1])
  }

  /** The frame of a state after others: nothing new is a heartbeat. */
  function FrameFor(before: seq<Frame>, v: View): Frame {
    if Shown(before) == Some(v) then Heartbeat else Progress(v)
  }

  /** The frames of the first n rounds. */
  function Polled(w: World, n: nat): seq<Frame>
    requires forall i :: 0 <= i < n ==> Running(w, i)
  {
    if n == 0 then []
    else
      assert Running(w, n - 1);
      Polled(w, n - 1) + [FrameFor(Polled(w, n - 1), ViewOf(w.poll(n - 1)))]
  }

  /** Round i is entered once the round before is over: its frame taken and its pause undisturbed. */
  predicate Entered(w: World, i: nat) { !w.leaves(i + 1) && (i > 0 ==> w.awake(i - 1)) }

  predicate Goes(w: World, i: nat) { i < ROUNDS && Entered(w, i) && Running(w, i) }

  /** The number of running rounds from round i on. */
  function Rounds(w: World, i: nat): (n: nat)
    requires i <= ROUNDS
    ensures i <= n <= ROUNDS && (forall k :: i <= k < n ==> Goes(w, k) && Running(w, k)) && !Goes(w, n)
    decreases ROUNDS - i
  {
    if Goes(w, i) then Rounds(w, i + 1) else i
  }

  /** The last round sees the session's end. */
  predicate SeesEnd(w: World, n: nat) {
    n < ROUNDS && Entered(w, n) && w.presence(n).Here? && Terminal(w.poll(n))
  }

  /** The frames of an ended session; a missing part stops them. */
  function EndFrames(w: World, n: nat, before: seq<Frame>): seq<Frame>
    requires Terminal(w.poll(n))
  {
    var p := w.poll(n);
    if p.status != "done" then [Error(if p.error.Some? && p.error.value != "" then p.error.value else p.status)]
    else if p.events.None? then []
    else
      var v := ViewOf(p);
      var progress := if Shown(before) == Some(v) then [] else [Progress(v)];
      if (progress != [] && w.leaves(n + 2)) || p.result.None? then progress
      else progress + [Complete(p.result.value)]
  }

  /** The frames after the last running round. */
  function Ending(w: World, n: nat): seq<Frame>
    requires forall i :: 0 <= i < n ==> Running(w, i)
  {
    if SeesEnd(w, n) then EndFrames(w, n, Polled(w, n))
    else if Entered(w, n) && (n >= ROUNDS || w.presence(n).Gone?) then [TIMED_OUT]
    else []
  }

  /** How the body of the generator is left: it returns, the consumer leaves at a frame, or something raises. */
  datatype Exit = Ended | Left | Raised

  function ExitOf(w: World, n: nat): Exit
    requires forall i :: 0 <= i < n ==> Running(w, i)
  {
    if w.leaves(n + 1) then Left
    else if !Entered(w, n) then Raised
    else if SeesEnd(w, n) then ExitAtEnd(w, n, Ending(w, n))
    else if Ending(w, n) == [] then Raised
    else if w.leaves(n + 2) then Left
    else Ended
  }

  /** Everything the browser is sent. */
  function Sent(session: string, w: World): seq<Frame> {
    var n := Rounds(w, 0);
    [Opening(session)] + Polled(w, n) + Ending(w, n)
  }

  // ---------- the generator ----------

  /** How a round of the loop is left: it goes on to the next, breaks the loop, or leaves the generator. */
  datatype Verdict = GoesToNext | Breaks | Leaves(exit: Exit)

  /** The body of `events`; `terminal` tells whether the session's end was seen. */
  method Events(session: string, w: World) returns (frames: seq<Frame>, terminal: bool, exit: Exit)
    ensures frames == Sent(session, w)
    ensures terminal <==> SeesEnd(w, Rounds(w, 0))
    ensures exit == ExitOf(w, Rounds(w, 0))
  {
    terminal, frames := false, [Opening(session)];
    var previous: Option<View> := None;
    if w.leaves(1) {
      NotEntered(w, 0);
      exit := Left;
      return;
    }
    var i := 0;
    while i < ROUNDS
      invariant i <= ROUNDS && Rounds(w, i) == Rounds(w, 0) && Entered(w, i)
      invariant forall k :: 0 <= k < i ==> Running(w, k)
      invariant frames == [Opening(session)] + Polled(w, i) && previous == Shown(Polled(w, i))
      invariant !terminal
    {
      ghost var before := frames;
      var sent, verdict;
      sent, terminal, verdict := Round(w, i, previous);
      frames := frames + sent;
      if verdict.Leaves? {
        exit := verdict.exit;
        RoundLeaves(session, w, i, before, sent, exit);
        return;
      }
      if verdict.Breaks? {
        break;
      }
      RoundGoes(session, w, i, before, sent);
      previous := Some(ViewOf(w.poll(i)));
      i := i + 1;
    }
    StopsTimedOut(session, w, i);
    frames := frames + [TIMED_OUT];
    exit := if w.leaves(|frames|) then Left else Ended;
  }

  /** What a round may come to, given what the browser was shown last. */
  ghost predicate RoundIs(w: World, i: nat, previous: Option<View>, sent: seq<Frame>, terminal: bool, verdict: Verdict) {
    && (terminal <==> w.presence(i).Here? && Terminal(w.poll(i)))
    && (Running(w, i) ==>
          && sent == [if previous == Some(ViewOf(w.poll(i))) then Heartbeat else Progress(ViewOf(w.poll(i)))]
          && verdict == if w.leaves(i + 2) then Leaves(Left) else if !w.awake(i) then Leaves(Raised) else GoesToNext)
    && (terminal ==> verdict == Leaves(ExitAtEnd(w, i, sent))
                     && forall before :: Shown(before) == previous ==> sent == EndFrames(w, i, before))
    && (!Running(w, i) && !terminal ==>
          sent == [] && verdict == if w.presence(i).Gone? then Breaks else Leaves(Raised))
  }

  function ExitAtEnd(w: World, i: nat, sent: seq<Frame>): Exit {
    if sent == [] then Raised
    else if w.leaves(i + 1 + |sent|) then Left
    else if w.poll(i).State? && w.poll(i).status == "done" && w.poll(i).result.None? then Raised
    else Ended
  }

  /** One round of the loop. */
  method Round(w: World, i: nat, previous: Option<View>) returns (sent: seq<Frame>, terminal: bool, verdict: Verdict)
    ensures RoundIs(w, i, previous, sent, terminal, verdict)
  {
    sent, terminal := [], false;
    if w.presence(i).Cut? {
      return sent, terminal, Leaves(Raised);
    }
    if w.presence(i).Gone? {
      return sent, terminal, Breaks;
    }
    var state := w.poll(i);
    if state.Raises? {
      return sent, terminal, Leaves(Raised);
    }
    if Terminal(state) {
      var exit;
      terminal := true;
      sent, exit := ShowEnd(w, i, previous);
      return sent, terminal, Leaves(exit);
    }
    if state.events.None? {
      return sent, terminal, Leaves(Raised);
    }
    var public := View(state.events.value, state.status);
    if Some(public) != previous {
      sent := [Progress(public)];
    } else {
      sent := [Heartbeat];
    }
    verdict := if w.leaves(i + 2) then Leaves(Left) else if !w.awake(i) then Leaves(Raised) else GoesToNext;
  }

  /** The branches of `events` for an ended session. */
  method ShowEnd(w: World, i: nat, previous: Option<View>) returns (frames: seq<Frame>, exit: Exit)
    requires Terminal(w.poll(i))
    ensures forall before :: Shown(before) == previous ==> frames == EndFrames(w, i, before)
    ensures exit == ExitAtEnd(w, i, frames)
  {
    var state := w.poll(i);
    frames, exit := [], Raised;
    if state.status == "done" {
      if state.events.None? {
        return;
      }
      var public := View(state.events.value, state.status);
      if Some(public) != previous {
        frames := [Progress(public)];
        if w.leaves(i + 2) {
          exit := Left;
          return;
        }
      }
      if state.result.None? {
        return;
      }
      frames := frames + [Complete(state.result.value)];
    } else {
      frames := [Error(if state.error.Some? && state.error.value != "" then state.error.value else state.status)];
    }
    exit := if w.leaves(i + 1 + |frames|) then Left else Ended;
  }

  lemma RoundLeaves(session: string, w: World, i: nat, before: seq<Frame>, sent: seq<Frame>, exit: Exit)
    requires i < ROUNDS && Entered(w, i) && forall k :: 0 <= k < i ==> Running(w, k)
    requires before == [Opening(session)] + Polled(w, i) && Rounds(w, i) == Rounds(w, 0)
    requires RoundIs(w, i, Shown(Polled(w, i)), sent, w.presence(i).Here? && Terminal(w.poll(i)), Leaves(exit))
    ensures before + sent == Sent(session, w) && exit == ExitOf(w, Rounds(w, 0))
    ensures (w.presence(i).Here? && Terminal(w.poll(i))) <==> SeesEnd(w, Rounds(w, 0))
  {
    if Running(w, i) {
      OneMore(session, w, i, sent[0]);
      NotEntered(w, i + 1);
      assert ([Opening(session)] + Polled(w, i + 1)) + [] == [Opening(session)] + Polled(w, i + 1);
    } else if SeesEnd(w, i) {
      StopsAtEnd(w, i);
    } else {
      StopsRaising(w, i);
    }
  }

  lemma StopsRaising(w: World, i: nat)
    requires i < ROUNDS && Entered(w, i) && forall k :: 0 <= k < i ==> Running(w, k)
    requires !Running(w, i) && !w.presence(i).Gone? && !SeesEnd(w, i)
    ensures Rounds(w, i) == i && Ending(w, i) == [] && ExitOf(w, i) == Raised
  {
  }

  lemma RoundGoes(session: string, w: World, i: nat, before: seq<Frame>, sent: seq<Frame>)
    requires i < ROUNDS && Entered(w, i) && forall k :: 0 <= k < i ==> Running(w, k)
    requires before == [Opening(session)] + Polled(w, i)
    requires RoundIs(w, i, Shown(Polled(w, i)), sent, false, GoesToNext)
    ensures Running(w, i) && Rounds(w, i + 1) == Rounds(w, i) && Entered(w, i + 1)
    ensures before + sent == [Opening(session)] + Polled(w, i + 1)
    ensures Shown(Polled(w, i + 1)) == Some(ViewOf(w.poll(i)))
  {
    OneMore(session, w, i, sent[0]);
    ShownAfter(Polled(w, i), sent[0]);
  }

  lemma StopsTimedOut(session: string, w: World, i: nat)
    requires i <= ROUNDS && Entered(w, i) && forall k :: 0 <= k < i ==> Running(w, k)
    requires Rounds(w, i) == Rounds(w, 0) && (i == ROUNDS || w.presence(i).Gone?)
    ensures [Opening(session)] + Polled(w, i) + [TIMED_OUT] == Sent(session, w) && !SeesEnd(w, Rounds(w, 0))
    ensures ExitOf(w, Rounds(w, 0)) == if w.leaves(|Sent(session, w)|) then Left else Ended
  {
    PolledSteady(w, i);
  }

  lemma StopsAtEnd(w: World, i: nat)
    requires SeesEnd(w, i) && forall k :: 0 <= k < i ==> Running(w, k)
    ensures Rounds(w, i) == i && Ending(w, i) == EndFrames(w, i, Polled(w, i))
    ensures ExitOf(w, i) == ExitAtEnd(w, i, Ending(w, i))
  {
  }

  lemma NotEntered(w: World, i: nat)
    requires i <= ROUNDS && !Entered(w, i) && forall k :: 0 <= k < i ==> Running(w, k)
    ensures Rounds(w, i) == i && Ending(w, i) == [] && !SeesEnd(w, i)
    ensures ExitOf(w, i) == if w.leaves(i + 1) then Left else Raised
  {
  }

  lemma OneMore(session: string, w: World, i: nat, f: Frame)
    requires i < ROUNDS && Entered(w, i) && Running(w, i) && forall k :: 0 <= k < i ==> Running(w, k)
    requires f == FrameFor(Polled(w, i), ViewOf(w.poll(i)))
    ensures Rounds(w, i) == Rounds(w, i + 1)
    ensures ([Opening(session)] + Polled(w, i)) + [f] == [Opening(session)] + Polled(w, i + 1)
  {
  }

  lemma ShownAfter(before: seq<Frame>, f: Frame)
    ensures Shown(before + [f]) == if f.Progress? then Some(f.view) else Shown(before)
  {
    assert (before + [f])[..|before|] == before;
  }

  // ---------- what holds of every run ----------

  predicate Steady(f: Frame) { f.Progress? || f.Heartbeat? }

  function CountSteady(frames: seq<Frame>): nat {
    if frames == [] then 0
    else CountSteady(frames[..|frames| - 1]) + if Steady(frames[|frames| - 1]) then 1 else 0
  }

  predicate Final(f: Frame) { f.Complete? || f.Error? }

  lemma {:induction false} PolledSteady(w: World, n: nat)
    requires forall i :: 0 <= i < n ==> Running(w, i)
    ensures |Polled(w, n)| == n && CountSteady(Polled(w, n)) == n
    ensures forall k :: 0 <= k < n ==> Steady(Polled(w, n)[k])
  {
    if n > 0 {
      PolledSteady(w, n - 1);
      assert Polled(w, n)[..n - 1] == Polled(w, n - 1);
    }
  }

  lemma {:induction false} CountConcat(a: seq<Frame>, b: seq<Frame>)
    ensures CountSteady(a + b) == CountSteady(a) + CountSteady(b)
  {
    if b == [] {
      assert a + b == a;
    } else {
      assert (a + b)[..|a + b| - 1] == a + b[..|b| - 1];
      CountConcat(a, b[..|b| - 1]);
    }
  }

  lemma EndingShape(w: World, n: nat)
    requires n <= ROUNDS && forall i :: 0 <= i < n ==> Running(w, i)
    ensures var e := Ending(w, n);
            && |e| <= 2 && (|e| == 2 ==> Steady(e[0]) && Final(e[1])) && (|e| == 1 ==> Steady(e[0]) || Final(e[0]))
            && n + CountSteady(e) <= ROUNDS
  {
    var e := Ending(w, n);
    assert |e| == 1 ==> e[..0] == [];
    assert |e| == 2 ==> e[..1] == [e[0]] && [e[0]][..0] == [];
  }

  /** A run sends one opening frame, then at most 1200 progress frames and heartbeats, then at most one
      completion or error, as its last frame. */
  lemma StreamShape(session: string, w: World)
    ensures var f := Sent(session, w);
            && f != [] && f[0] == Opening(session)
            && (forall k :: 0 < k < |f| - 1 ==> Steady(f[k]))
            && (|f| > 1 ==> Steady(f[|f| - 1]) || Final(f[|f| - 1]))
            && CountSteady(f) <= ROUNDS
  {
    var n := Rounds(w, 0);
    PolledSteady(w, n);
    EndingShape(w, n);
    var body := [Opening(session)] + Polled(w, n);
    CountConcat(body, Ending(w, n));
    CountConcat([Opening(session)], Polled(w, n));
    assert CountSteady([Opening(session)]) == 0;
  }

  /** After every round the last progress frame sent shows the polled state, so a heartbeat tells exactly that
      the state is the one of the round before. */
  lemma {:induction false} StateIsShown(w: World, n: nat)
    requires n > 0 && forall i :: 0 <= i < n ==> Running(w, i)
    ensures Running(w, n - 1) && Shown(Polled(w, n)) == Some(ViewOf(w.poll(n - 1)))
    ensures |Polled(w, n)| == n
    ensures Polled(w, n)[n - 1] == Heartbeat <==>
            n > 1 && Running(w, n - 2) && ViewOf(w.poll(n - 1)) == ViewOf(w.poll(n - 2))
  {
    assert Running(w, n - 1);
    PolledSteady(w, n - 1);
    ShownAfter(Polled(w, n - 1), FrameFor(Polled(w, n - 1), ViewOf(w.poll(n - 1))));
    if n > 1 {
      assert Running(w, n - 2);
      StateIsShown(w, n - 1);
    }
  }

  /** No progress frame repeats the one before it, whatever heartbeats stand between. */
  predicate NoRepeats(frames: seq<Frame>) {
    forall k :: 0 <= k < |frames| && frames[k].Progress? ==> Shown(frames[..k]) != Some(frames[k].view)
  }

  lemma NoRepeatsAfter(frames: seq<Frame>, f: Frame)
    requires NoRepeats(frames) && (f.Progress? ==> Shown(frames) != Some(f.view))
    ensures NoRepeats(frames + [f])
  {
    var g := frames + [f];
    forall k | 0 <= k < |g| && g[k].Progress? ensures Shown(g[..k]) != Some(g[k].view) {
      assert g[..k] == frames[..k];
      assert frames[..|frames|] == frames;
    }
  }

  lemma {:induction false} ShownBehind(f: Frame, frames: seq<Frame>)
    requires !f.Progress?
    ensures Shown([f] + frames) == Shown(frames)
  {
    if frames == [] {
      assert ([f] + frames)[..0] == [];
    } else {
      assert ([f] + frames)[..|frames|] == [f] + frames[..|frames| - 1];
      ShownBehind(f, frames[..|frames| - 1]);
    }
  }

  lemma {:induction false} PolledNoRepeats(session: string, w: World, n: nat)
    requires forall i :: 0 <= i < n ==> Running(w, i)
    ensures NoRepeats([Opening(session)] + Polled(w, n))
  {
    if n > 0 {
      PolledNoRepeats(session, w, n - 1);
      var before := Polled(w, n - 1);
      assert Running(w, n - 1);
      ShownBehind(Opening(session), before);
      NoRepeatsAfter([Opening(session)] + before, FrameFor(before, ViewOf(w.poll(n - 1))));
      assert [Opening(session)] + Polled(w, n)
             == ([Opening(session)] + before) + [FrameFor(before, ViewOf(w.poll(n - 1)))];
    }
  }

  lemma StreamNoRepeats(session: string, w: World)
    ensures NoRepeats(Sent(session, w))
  {
    var n := Rounds(w, 0);
    var body := [Opening(session)] + Polled(w, n);
    PolledNoRepeats(session, w, n);
    ShownBehind(Opening(session), Polled(w, n));
    EndNoRepeats(body, Ending(w, n), w, n);
  }

  lemma EndNoRepeats(body: seq<Frame>, e: seq<Frame>, w: World, n: nat)
    requires n <= ROUNDS && forall i :: 0 <= i < n ==> Running(w, i)
    requires NoRepeats(body) && Shown(body) == Shown(Polled(w, n)) && e == Ending(w, n)
    ensures NoRepeats(body + e)
  {
    EndingShape(w, n);
    if |e| == 0 {
      assert body + e == body;
    } else {
      NoRepeatsAfter(body, e[0]);
      if |e| == 1 {
        assert body + e == body + [e[0]];
      } else {
        NoRepeatsAfter(body + [e[0]], e[1]);
        assert body + e == (body + [e[0]]) + [e[1]];
      }
    }
  }

  /** The result is sent exactly when the session was seen done with all parts and the consumer stayed; the
      time-out error exactly when the rounds ran out or the browser was found gone before an end was seen. */
  lemma LastFrameMeans(session: string, w: World)
    ensures var f := Sent(session, w);
            var n := Rounds(w, 0);
            var changed := w.poll(n).State? && w.poll(n).events.Some? && Shown(Polled(w, n)) != Some(ViewOf(w.poll(n)));
            && (f[|f| - 1].Complete? <==>
                  && SeesEnd(w, n) && w.poll(n).status == "done" && w.poll(n).events.Some? && w.poll(n).result.Some?
                  && !(changed && w.leaves(n + 2)))
            && (f[|f| - 1].Complete? ==> f[|f| - 1].result == w.poll(n).result.value)
            && (f[|f| - 1].Error? <==>
                  || (SeesEnd(w, n) && w.poll(n).status != "done")
                  || (Entered(w, n) && (n == ROUNDS || w.presence(n).Gone?)))
            && (f[|f| - 1].Error? && !SeesEnd(w, n) ==> f[|f| - 1].message == "Wiki search timed out")
  {
    var n := Rounds(w, 0);
    PolledSteady(w, n);
    var e, f := Ending(w, n), Sent(session, w);
    if e != [] {
      assert f[|f| - 1] == e[|e| - 1];
    } else {
      assert f[|f| - 1] == ([Opening(session)] + Polled(w, n))[n];
    }
  }

  // ---------- the frames themselves ----------

  lemma {:induction false} PolledAt(w: World, n: nat, i: nat)
    requires i < n && forall k :: 0 <= k < n ==> Running(w, k)
    ensures |Polled(w, n)| == n && Running(w, i) && Polled(w, n)[..i + 1] == Polled(w, i + 1)
    decreases n
  {
    assert Running(w, n - 1);
    PolledSteady(w, n - 1);
    if i < n - 1 {
      PolledAt(w, n - 1, i);
      PrefixStays(Polled(w, n - 1), FrameFor(Polled(w, n - 1), ViewOf(w.poll(n - 1))), i + 1);
    }
  }

  lemma PrefixStays(frames: seq<Frame>, f: Frame, n: nat)
    requires n <= |frames|
    ensures (frames + [f])[..n] == frames[..n]
  {
  }

  /** The poll tells nothing that the one before did not tell. */
  predicate TellsTheSame(w: World, i: nat) {
    i > 0 && w.poll(i).State? && w.poll(i - 1).State?
    && w.poll(i).events == w.poll(i - 1).events && w.poll(i).status == w.poll(i - 1).status
  }

  /** Frame by frame: behind the opening every round that goes on has one frame, the state's events and status or a
      heartbeat. */
  lemma FrameOfRound(session: string, w: World, i: nat)
    requires i < Rounds(w, 0)
    ensures var f, p := Sent(session, w), w.poll(i);
            && |f| > i + 1 && f[0] == Opening(session) && p.State? && p.events.Some?
            && f[i + 1] == if TellsTheSame(w, i) then Heartbeat else Progress(View(p.events.value, p.status))
  {
    var n := Rounds(w, 0);
    PolledAt(w, n, i);
    assert Polled(w, n)[i] == Polled(w, n)[..i + 1][i];
    StateIsShown(w, i + 1);
    if i > 0 {
      assert Running(w, i - 1);
      StateIsShown(w, i);
    }
    PolledSteady(w, i);
  }

  /** The end of a session: what is sent behind the rounds, its last state always being new. */
  lemma EndIsShown(session: string, w: World)
    requires SeesEnd(w, Rounds(w, 0))
    ensures var n, f := Rounds(w, 0), Sent(session, w);
            var p := w.poll(n);
            |f| > n && f[n + 1..] ==
            if p.status != "done" then [Error(if p.error.Some? && p.error.value != "" then p.error.value else p.status)]
            else if p.events.None? then []
            else [Progress(View(p.events.value, p.status))]
                 + if p.result.Some? && !w.leaves(n + 2) then [Complete(p.result.value)] else []
  {
    var n := Rounds(w, 0);
    PolledSteady(w, n);
    assert Sent(session, w)[n + 1..] == Ending(w, n);
    if n > 0 {
      assert Running(w, n - 1);
      StateIsShown(w, n);
    }
  }

  // ---------- cleaning up ----------

  /** What a request does to the service and to its client. */
  datatype Act = StartCall | Send(frame: Frame) | CancelCall | CloseClient

  /** How an awaited call or the cleanup task ends: well, by an exception, or by a cancellation. */
  datatype Completion = Well | Failing | Cancelled

  /** Where the cleanup task is: not begun, waiting for the cancel call, waiting for the closing with the end of
      what went before, or over. */
  datatype Stage = Fresh | Cancelling | Closing(before: Completion) | Over(result: Completion)

  /** The generator waits for its cleanup task behind a shield, or has been left, with the exit it then takes. */
  datatype Machine = Machine(stage: Stage, waiting: bool, exit: Exit, acts: seq<Act>)

  /** One move: the cleanup task goes on, with the end of what it waited for, or the wait is interrupted. */
  datatype Turn = GoesOn(ending: Completion) | Interrupted

  function CleanupStart(exit: Exit): Machine { Machine(Fresh, true, exit, []) }

  /** `cleanup`: try the cancellation, and finally close the client, whose exception takes the place of an earlier
      one. A failure leaves the generator if it still waits; a cancelled cleanup is swallowed like an interruption. */
  function Clean(m: Machine, terminal: bool, ending: Completion): Machine {
    match m.stage
    case Fresh =>
      if terminal then m.(stage := Closing(Well), acts := m.acts + [CloseClient])
      else m.(stage := Cancelling, acts := m.acts + [CancelCall])
    case Cancelling => m.(stage := Closing(ending), acts := m.acts + [CloseClient])
    case Closing(before) =>
      var result := if ending.Well? then before else ending;
      m.(stage := Over(result), waiting := false, exit := if m.waiting && result.Failing? then Raised else m.exit)
    case Over(_) => m
  }

  /** An interruption ends the wait only: it is swallowed, and the shielded task goes on. */
  function Move(m: Machine, terminal: bool, turn: Turn): Machine {
    match turn
    case GoesOn(ending) => Clean(m, terminal, ending)
    case Interrupted => m.(waiting := false)
  }

  function Moves(m: Machine, terminal: bool, turns: seq<Turn>): Machine
    decreases |turns|
  {
    if turns == [] then m else Moves(Move(m, terminal, turns[0]), terminal, turns[1..])
  }

  function Times(acts: seq<Act>, a: Act): nat {
    if acts == [] then 0 else Times(acts[..|acts| - 1], a) + if acts[|acts| - 1] == a then 1 else 0
  }

  /** What has been done by each stage. */
  predicate Done(m: Machine, terminal: bool) {
    (m.stage.Cancelling? ==> !terminal) &&
    m.acts ==
    match m.stage
    case Fresh => []
    case Cancelling => [CancelCall]
    case Closing(_) => if terminal then [CloseClient] else [CancelCall, CloseClient]
    case Over(_) => if terminal then [CloseClient] else [CancelCall, CloseClient]
  }

  lemma {:induction false} MovesDone(m: Machine, terminal: bool, turns: seq<Turn>)
    requires Done(m, terminal)
    ensures Done(Moves(m, terminal, turns), terminal)
    decreases |turns|
  {
    if turns != [] {
      MovesDone(Move(m, terminal, turns[0]), terminal, turns[1..]);
    }
  }

  /** How many moves of the cleanup task are among the turns. */
  function Steps(turns: seq<Turn>): nat
    decreases |turns|
  {
    if turns == [] then 0 else (if turns[0].GoesOn? then 1 else 0) + Steps(turns[1..])
  }

  function MovesLeft(m: Machine, terminal: bool): nat {
    match m.stage
    case Fresh => if terminal then 2 else 3
    case Cancelling => 2
    case Closing(_) => 1
    case Over(_) => 0
  }

  lemma {:induction false} MovesEnd(m: Machine, terminal: bool, turns: seq<Turn>)
    ensures Moves(m, terminal, turns).stage.Over? <==> Steps(turns) >= MovesLeft(m, terminal)
    decreases |turns|
  {
    if turns != [] {
      MovesEnd(Move(m, terminal, turns[0]), terminal, turns[1..]);
    }
  }

  lemma TimesAfter(acts: seq<Act>, a: Act)
    ensures forall b :: Times(acts + [a], b) == Times(acts, b) + if a == b then 1 else 0
  {
    assert (acts + [a])[..|acts|] == acts;
  }

  lemma TimesOfDone(m: Machine, terminal: bool)
    requires Done(m, terminal)
    ensures Times(m.acts, CloseClient) == if m.stage.Closing? || m.stage.Over? then 1 else 0
    ensures Times(m.acts, CancelCall) == if terminal || m.stage.Fresh? then 0 else 1
  {
    TimesAfter([], CancelCall);
    TimesAfter([], CloseClient);
    TimesAfter([CancelCall], CloseClient);
    assert [CancelCall] + [CloseClient] == [CancelCall, CloseClient];
    assert [] + [CancelCall] == [CancelCall] && [] + [CloseClient] == [CloseClient];
  }

  /** Whatever exit the generator took, whatever the cancel call and the closing come to, and whenever the wait
      is interrupted: the client is never closed twice nor the session cancelled twice, nor an ended session at
      all; the cancellation comes first; and once the cleanup task has made its two or three moves, the client
      has been closed, and the session cancelled unless its end was seen. */
  lemma CleanupOnEveryExit(exit: Exit, terminal: bool, turns: seq<Turn>)
    ensures var m := Moves(CleanupStart(exit), terminal, turns);
            && Times(m.acts, CloseClient) <= 1
            && Times(m.acts, CancelCall) <= (if terminal then 0 else 1)
            && (Times(m.acts, CloseClient) == 1 ==> (
                  && Times(m.acts, CancelCall) == (if terminal then 0 else 1)
                  && m.acts[|m.acts| - 1] == CloseClient))
            && (m.stage.Over? <==> Steps(turns) >= if terminal then 2 else 3)
            && (m.stage.Over? ==> Times(m.acts, CloseClient) == 1)
  {
    MovesDone(CleanupStart(exit), terminal, turns);
    MovesEnd(CleanupStart(exit), terminal, turns);
    TimesOfDone(Moves(CleanupStart(exit), terminal, turns), terminal);
  }

  /** The wait is not interrupted before the cleanup is over. */
  predicate WaitsOut(m: Machine, terminal: bool, turns: seq<Turn>)
    decreases |turns|
  {
    m.stage.Over? || (turns != [] && turns[0].GoesOn? && WaitsOut(Move(m, terminal, turns[0]), terminal, turns[1..]))
  }

  /** The generator leaves by the exception of its cleanup exactly when it waited to the end and the cleanup
      failed; an interruption, and a cancellation of the cleanup itself, are swallowed and leave the exit as it was. */
  lemma {:induction false} ExitAfterCleanup(m: Machine, terminal: bool, turns: seq<Turn>)
    requires !m.stage.Over? && m.waiting && Moves(m, terminal, turns).stage.Over?
    ensures var n := Moves(m, terminal, turns);
            !n.waiting && n.exit == if WaitsOut(m, terminal, turns) && n.stage.result.Failing? then Raised else m.exit
    decreases |turns|
  {
    var u := Move(m, terminal, turns[0]);
    if u.stage.Over? {
      OverStays(u, terminal, turns[1..]);
    } else if u.waiting {
      ExitAfterCleanup(u, terminal, turns[1..]);
    } else {
      UnwatchedExit(u, terminal, turns[1..]);
    }
  }

  lemma {:induction false} OverStays(m: Machine, terminal: bool, turns: seq<Turn>)
    requires m.stage.Over? && !m.waiting
    ensures Moves(m, terminal, turns) == m
    decreases |turns|
  {
    if turns != [] {
      OverStays(m, terminal, turns[1..]);
    }
  }

  lemma {:induction false} UnwatchedExit(m: Machine, terminal: bool, turns: seq<Turn>)
    requires !m.waiting
    ensures Moves(m, terminal, turns).exit == m.exit && !Moves(m, terminal, turns).waiting
    decreases |turns|
  {
    if turns != [] {
      UnwatchedExit(Move(m, terminal, turns[0]), terminal, turns[1..]);
    }
  }

  /** The `finally` of the generator and the cleanup task it starts, for as many moves as are given. */
  method RunCleanup(exit: Exit, terminal: bool, turns: seq<Turn>) returns (m: Machine)
    ensures m == Moves(CleanupStart(exit), terminal, turns)
  {
    var stage, waiting, out, acts := Fresh, true, exit, [];
    var i := 0;
    while i < |turns|
      invariant 0 <= i <= |turns|
      invariant Moves(Machine(stage, waiting, out, acts), terminal, turns[i..]) == Moves(CleanupStart(exit), terminal, turns)
    {
      assert turns[i..][0] == turns[i] && turns[i..][1..] == turns[i + 1..];
      if turns[i].Interrupted? {
        waiting := false;
      } else if stage.Fresh? && !terminal {
        acts := acts + [CancelCall];
        stage := Cancelling;
      } else if stage.Fresh? || stage.Cancelling? {
        acts := acts + [CloseClient];
        stage := Closing(if stage.Cancelling? then turns[i].ending else Well);
      } else if stage.Closing? {
        var result := if turns[i].ending.Well? then stage.before else turns[i].ending;
        stage := Over(result);
        if waiting && result.Failing? {
          out := Raised;
        }
        waiting := false;
      }
      i := i + 1;
    }
    m := Machine(stage, waiting, out, acts);
  }

  // ---------- the whole request ----------

  /** The call that starts the session raises, or replies, perhaps without a session id. */
  datatype Start = StartRaises | Started(session: Option<string>)

  function Sends(frames: seq<Frame>): seq<Act> {
    if frames == [] then [] else Sends(frames[..|frames| - 1]) + [Send(frames[|frames| - 1])]
  }

  /** The frames that the acts send. */
  function SentBy(acts: seq<Act>): seq<Frame> {
    if acts == [] then []
    else
      var last := acts[|acts| - 1];
      SentBy(acts[..|acts| - 1]) + if last.Send? then [last.frame] else []
  }

  /** The session is streamed: it was started, has an id, and the response is iterated. */
  predicate Streamed(start: Start, begun: bool) { start.Started? && start.session.Some? && begun }

  /** The moves the cleanup task needs to come to its end. */
  function Needed(w: World): nat { if SeesEnd(w, Rounds(w, 0)) then 2 else 3 }

  /** `stream_jonex_wiki`. The client is closed once when the start raises, and once when a streamed session has
      been cleaned up, with one cancellation before it unless the end was seen; it is never closed when the
      reply lacks a session id or the response is never iterated. */
  method Stream(start: Start, begun: bool, w: World, turns: seq<Turn>) returns (acts: seq<Act>)
    ensures SentBy(acts) == if Streamed(start, begun) then Sent(start.session.value, w) else []
    ensures Times(acts, StartCall) == 1 && acts[0] == StartCall
    ensures start.StartRaises? ==> Times(acts, CloseClient) == 1
    ensures start.Started? && !Streamed(start, begun) ==> Times(acts, CloseClient) == 0
    ensures !Streamed(start, begun) ==> Times(acts, CancelCall) == 0
    ensures Streamed(start, begun) ==> Times(acts, CloseClient) <= 1 && Times(acts, CancelCall) <= 1
    ensures Streamed(start, begun) && Steps(turns) >= Needed(w) ==>
              && Times(acts, CloseClient) == 1 && acts[|acts| - 1] == CloseClient
              && Times(acts, CancelCall) == if SeesEnd(w, Rounds(w, 0)) then 0 else 1
  {
    acts := [StartCall];
    CountOne(StartCall);
    if start.StartRaises? {
      acts := acts + [CloseClient];
      CountTwo(StartCall, CloseClient);
      return;
    }
    if start.session.None? || !begun {
      return;
    }
    var frames, terminal, exit := Events(start.session.value, w);
    var m := RunCleanup(exit, terminal, turns);
    WholeStream(frames, exit, terminal, turns);
    acts := acts + Sends(frames) + m.acts;
  }

  lemma WholeStream(frames: seq<Frame>, exit: Exit, terminal: bool, turns: seq<Turn>)
    ensures var acts := [StartCall] + Sends(frames) + Moves(CleanupStart(exit), terminal, turns).acts;
            && SentBy(acts) == frames && Times(acts, StartCall) == 1 && acts[0] == StartCall
            && Times(acts, CloseClient) <= 1 && Times(acts, CancelCall) <= 1
            && (Steps(turns) >= (if terminal then 2 else 3) ==>
                  && Times(acts, CloseClient) == 1 && acts[|acts| - 1] == CloseClient
                  && Times(acts, CancelCall) == if terminal then 0 else 1)
  {
    var m := Moves(CleanupStart(exit), terminal, turns);
    CleanupOnEveryExit(exit, terminal, turns);
    MovesDone(CleanupStart(exit), terminal, turns);
    CleanupSendsNothing(m, terminal);
    WholeTimes(frames, m.acts, StartCall);
    WholeTimes(frames, m.acts, CancelCall);
    WholeTimes(frames, m.acts, CloseClient);
    WholeSent(frames, m.acts);
    LastOf([StartCall] + Sends(frames), m.acts);
  }

  lemma LastOf(a: seq<Act>, b: seq<Act>)
    requires a != []
    ensures (a + b)[0] == a[0] && (b != [] ==> (a + b)[|a + b| - 1] == b[|b| - 1])
  {
  }

  lemma WholeTimes(frames: seq<Frame>, acts: seq<Act>, a: Act)
    requires !a.Send?
    ensures Times([StartCall] + Sends(frames) + acts, a) == (if a == StartCall then 1 else 0) + Times(acts, a)
  {
    CountOne(StartCall);
    SendsCount(frames, a);
    TimesConcat([StartCall], Sends(frames), a);
    TimesConcat([StartCall] + Sends(frames), acts, a);
  }

  lemma WholeSent(frames: seq<Frame>, acts: seq<Act>)
    requires SentBy(acts) == []
    ensures SentBy([StartCall] + Sends(frames) + acts) == frames
  {
    CountOne(StartCall);
    SendsShow(frames);
    SentConcat([StartCall], Sends(frames));
    SentConcat([StartCall] + Sends(frames), acts);
    assert [] + frames == frames && frames + [] == frames;
  }

  lemma CountOne(a: Act)
    ensures forall b :: Times([a], b) == if a == b then 1 else 0
    ensures SentBy([a]) == if a.Send? then [a.frame] else []
  {
    assert [a][..0] == [];
    assert [] + SentBy([a]) == SentBy([a]);
  }

  lemma CountTwo(a: Act, b: Act)
    requires !a.Send? && !b.Send? && a != b
    ensures forall c :: Times([a] + [b], c) == if c == a || c == b then 1 else 0
    ensures SentBy([a] + [b]) == []
  {
    CountOne(a);
    CountOne(b);
    TimesAfter([a], b);
    SentConcat([a], [b]);
  }

  lemma CleanupSendsNothing(m: Machine, terminal: bool)
    requires Done(m, terminal)
    ensures SentBy(m.acts) == [] && Times(m.acts, StartCall) == 0
    ensures m.acts == [] ==> Times(m.acts, CloseClient) == 0
  {
    CountOne(CancelCall);
    CountOne(CloseClient);
    CountTwo(CancelCall, CloseClient);
    assert [CancelCall] + [CloseClient] == [CancelCall, CloseClient];
  }

  lemma {:induction false} TimesConcat(a: seq<Act>, b: seq<Act>, x: Act)
    ensures Times(a + b, x) == Times(a, x) + Times(b, x)
  {
    if b == [] {
      assert a + b == a;
    } else {
      assert (a + b)[..|a + b| - 1] == a + b[..|b| - 1];
      TimesConcat(a, b[..|b| - 1], x);
    }
  }

  lemma {:induction false} SentConcat(a: seq<Act>, b: seq<Act>)
    ensures SentBy(a + b) == SentBy(a) + SentBy(b)
  {
    if b == [] {
      assert a + b == a;
      assert SentBy(a) + [] == SentBy(a);
    } else {
      var last := b[|b| - 1];
      assert (a + b)[..|a + b| - 1] == a + b[..|b| - 1];
      SentConcat(a, b[..|b| - 1]);
      Regroup(SentBy(a), SentBy(b[..|b| - 1]), if last.Send? then [last.frame] else []);
    }
  }

  lemma Regroup(a: seq<Frame>, b: seq<Frame>, c: seq<Frame>)
    ensures a + (b + c) == (a + b) + c
  {
  }

  lemma {:induction false} SendsCount(frames: seq<Frame>, a: Act)
    requires !a.Send?
    ensures Times(Sends(frames), a) == 0
  {
    if frames != [] {
      var n := |frames| - 1;
      SendsCount(frames[..n], a);
      TimesAfter(Sends(frames[..n]), Send(frames[n]));
    }
  }

  lemma {:induction false} SendsShow(frames: seq<Frame>)
    ensures SentBy(Sends(frames)) == frames
  {
    if frames != [] {
      var n := |frames| - 1;
      SendsShow(frames[..n]);
      CountOne(Send(frames[n]));
      SentConcat(Sends(frames[..n]), [Send(frames[n])]);
      assert frames == frames[..n] + [frames[n]];
    }
  }

  /** An end is seen exactly when some round is reached whose poll answers with it. */
  lemma EndSeenIff(w: World)
    ensures SeesEnd(w, Rounds(w, 0)) <==>
            exists i: nat :: SeesEnd(w, i) && forall k :: 0 <= k < i ==> Goes(w, k)
  {
    if i: nat :| SeesEnd(w, i) && forall k :: 0 <= k < i ==> Goes(w, k) {
      RoundsReach(w, 0, i);
    }
  }

  lemma {:induction false} RoundsReach(w: World, j: nat, i: nat)
    requires j <= i < ROUNDS && !Running(w, i) && forall k :: j <= k < i ==> Goes(w, k)
    ensures Rounds(w, j) == i
    decreases i - j
  {
    if j < i { RoundsReach(w, j + 1, i); }
  }
}
