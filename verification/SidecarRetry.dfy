/** The gateway's call to a capability: attempts with exponential backoff and full jitter.

    Four routes hold a copy of the loop, with their own way of opening the client, their own settings, and
    their own clauses for what an attempt raises. */
module SidecarRetry {
  import opened Options

  datatype Site = KnowledgeBase | Internal | BusinessDomain | TaskCenter

  /** The `data` of a reply; `Falsy` stands for other values that count as false. */
  datatype Data = Missing | Null | EmptyObject | Falsy | Value(v: int)

  // ---------- what the libraries do ----------

  /** The exceptions told apart: the timeout is a transport error, the invocation error a business error, and
      a cancellation no `Exception` at all. */
  datatype Exn =
    | TimeoutError
    | TransportError
    | InvokeError
    | BusinessError
    | CodedError
    | PlainError
    | CancelError

  predicate IsTransport(e: Exn) { e.TimeoutError? || e.TransportError? }

  predicate IsBusiness(e: Exn) { e.InvokeError? || e.BusinessError? }

  predicate IsException(e: Exn) { !e.CancelError? }

  /** The body of a response; `error` is what rebuilding the error of a failed envelope raises. */
  datatype Body = NotJson | NotObject | Envelope(success: bool, data: Data, error: Exn)

  datatype Reply = Raises(e: Exn) | Responds(code: int, body: Body)

  /** The settings, taken from the environment: nothing bounds them. */
  datatype Config = Config(retries: int, base: real, cap: real)

  /** The outside: the settings at import and at the call, what opening a client for an attempt raises, the
      reply to each attempt's request, the jitter drawn after each, and which waits are cut short. */
  datatype Raw = Raw(imported: Config, current: Config, open: nat -> Option<Exn>, reply: nat -> Reply,
                     jitter: nat -> real, cut: nat -> bool)

  /** What the request itself raises: the sending, the reading of the body, or a failed envelope. */
  function Thrown(r: Reply): Option<Exn> {
    match r
    case Raises(e) => Some(e)
    case Responds(code, Envelope(success, _, error)) => if code != 200 || !success then Some(error) else None
    case Responds(_, _) => Some(PlainError)
  }

  // ---------- what an attempt comes to ----------

  /** How one attempt ends; an unexpected exception may carry a code and a status of its own. */
  datatype Outcome = Success(data: Data) | Business | Timeout | Transport | Unexpected(coded: bool) | Cut

  datatype Answer = Returned(data: Data) | PassedOn | TimedOut | Unavailable | Cancelled | Nothing | Unopened(e: Exn)

  datatype Status = Succeeded | FailedStatus | CancelledStatus

  /** What the monitor gets of one attempt. */
  datatype Record = Record(number: nat, final: bool, waitBefore: Option<int>, status: Status, code: Option<int>)

  /** The outside as a retry loop should see it. */
  datatype World = World(outcome: nat -> Outcome, jitter: nat -> real, cut: nat -> bool)

  function Kind(e: Exn): Outcome {
    match e
    case TimeoutError => Timeout
    case TransportError => Transport
    case InvokeError => Business
    case BusinessError => Business
    case CodedError => Unexpected(true)
    case PlainError => Unexpected(false)
    case CancelError => Cut
  }

  function OutcomeOf(opening: Option<Exn>, r: Reply): Outcome {
    if opening.Some? then Kind(opening.value)
    else if Thrown(r).Some? then Kind(Thrown(r).value)
    else Success(r.body.data)
  }

  /** A route that opens a client for every attempt, and one that has opened it before. */
  function Seen(site: Site, raw: Raw): World {
    World((k: nat) => OutcomeOf(if site.Internal? then None else raw.open(k), raw.reply(k)), raw.jitter, raw.cut)
  }

  function SettingsOf(site: Site, raw: Raw): Config { if site.Internal? then raw.imported else raw.current }

  // ---------- waiting ----------

  /** `2 ** n` */
  function Power(n: nat): (p: real)
    ensures p >= 1.0
  {
    if n == 0 then 1.0 else 2.0 * Power(n - 1)
  }

  function Min(a: real, b: real): real { if a <= b then a else b }

  function Positive(a: real): real { if a < 0.0 then 0.0 else a }

  function Delay(c: Config, attempt: nat): real { Min(c.base * Power(attempt), c.cap) }

  /** `random.uniform` draws between 0 and the delay, whichever is larger. */
  ghost predicate Fair(c: Config, w: World) {
    forall k: nat ::
      && (Delay(c, k) >= 0.0 ==> 0.0 <= w.jitter(k) <= Delay(c, k))
      && (Delay(c, k) < 0.0 ==> Delay(c, k) <= w.jitter(k) <= 0.0)
  }

  /** `int(x)`: towards zero. */
  function Truncate(x: real): int { if x < 0.0 then -((-x).Floor) else x.Floor }

  function Millis(w: World, attempt: nat): int { Truncate(w.jitter(attempt) * 1000.0) }

  // ---------- what a route makes of the last attempt ----------

  function Unwrap(site: Site, data: Data): Data {
    match site
    case KnowledgeBase => if data.Value? then data else EmptyObject
    case Internal => if data.Value? then data else EmptyObject
    case BusinessDomain => if data.Missing? then EmptyObject else data
    case TaskCenter => if data.Missing? then Null else data
  }

  function AnswerTo(site: Site, o: Outcome): Answer {
    match o
    case Success(data) => Returned(Unwrap(site, data))
    case Business => PassedOn
    case Timeout => TimedOut
    case Transport => Unavailable
    case Unexpected(coded) =>
      if coded && (site.KnowledgeBase? || site.TaskCenter?) then PassedOn else Unavailable
    case Cut => Cancelled
  }

  function StatusOf(o: Outcome): Status {
    if o.Success? then Succeeded else if o.Cut? then CancelledStatus else FailedStatus
  }

  function CodeOf(o: Outcome): Option<int> {
    if o.Timeout? then Some(504) else if o.Transport? then Some(502) else None
  }

  // ---------- the handle of one attempt ----------

  datatype AttemptSpan = AttemptSpan(row: Record, marked: bool) {

    function Fail(errorCode: Option<int>): AttemptSpan {
      AttemptSpan(row.(status := FailedStatus, code := if errorCode.Some? then errorCode else row.code), true)
    }

    function MarkFinal(isFinal: bool): AttemptSpan { AttemptSpan(row.(final := isFinal), marked) }

    /** Leaving the span by an exception: an unmarked attempt is marked by its kind. */
    function Leave(cancelled: bool): AttemptSpan {
      if marked then this
      else AttemptSpan(row.(status := if cancelled then CancelledStatus else FailedStatus), true)
    }
  }

  // ---------- the loop ----------

  /** A whole call: the records of its attempts, the waits, and the answer. */
  datatype Call = Call(records: seq<Record>, waits: seq<real>, answer: Answer)

  /** The wait before attempt k + 1 is over and the attempt is made. */
  predicate Repeats(c: Config, w: World, k: nat) { w.outcome(k).Transport? && k < c.retries && !w.cut(k) }

  function WaitBefore(w: World, k: nat): Option<int> { if k == 0 then None else Some(Millis(w, k - 1)) }

  function RecordOf(c: Config, w: World, k: nat): Record {
    Record(k + 1, !(w.outcome(k).Transport? && k < c.retries), WaitBefore(w, k),
           StatusOf(w.outcome(k)), CodeOf(w.outcome(k)))
  }

  /** The call is as the settings and the outside demand. */
  predicate Faithful(call: Call, site: Site, c: Config, w: World) {
    var n := |call.records|;
    && (c.retries < 0 <==> n == 0)
    && (n == 0 ==> call.waits == [] && call.answer == Nothing)
    && (forall k :: 0 <= k < n - 1 ==> Repeats(c, w, k))
    && (n > 0 ==>
          && !Repeats(c, w, n - 1)
          && call.answer == (if WaitsLast(call, c, w) then Cancelled else AnswerTo(site, w.outcome(n - 1))))
    && (forall k :: 0 <= k < n ==> call.records[k] == RecordOf(c, w, k))
    && |call.waits| == (if n == 0 then 0 else n - 1)
    && (forall k :: 0 <= k < |call.waits| ==> call.waits[k] == Positive(w.jitter(k)))
  }

  /** The call was cut in the wait after its last attempt. */
  predicate WaitsLast(call: Call, c: Config, w: World) {
    call.records != [] && w.outcome(|call.records| - 1).Transport? && |call.records| - 1 < c.retries
  }

  /** The loop has made some attempts, all of which are to be repeated. */
  ghost predicate SoFar(records: seq<Record>, waits: seq<real>, wait: Option<int>, attempt: nat, c: Config, w: World) {
    && attempt == |records| == |waits|
    && (c.retries < 0 ==> attempt == 0) && (attempt > 0 ==> attempt <= c.retries)
    && wait == WaitBefore(w, attempt)
    && (forall k :: 0 <= k < attempt ==> Repeats(c, w, k) && records[k] == RecordOf(c, w, k))
    && (forall k :: 0 <= k < attempt ==> waits[k] == Positive(w.jitter(k)))
  }

  lemma OneMoreAttempt(records: seq<Record>, waits: seq<real>, wait: Option<int>, attempt: nat, c: Config, w: World, row: Record)
    requires SoFar(records, waits, wait, attempt, c, w) && Repeats(c, w, attempt) && row == RecordOf(c, w, attempt)
    ensures SoFar(records + [row], waits + [Positive(w.jitter(attempt))], Some(Millis(w, attempt)), attempt + 1, c, w)
  {
  }

  lemma LastAttempt(records: seq<Record>, waits: seq<real>, wait: Option<int>, attempt: nat, c: Config, w: World,
                    row: Record, answer: Answer, site: Site)
    requires SoFar(records, waits, wait, attempt, c, w) && c.retries >= attempt && !Repeats(c, w, attempt)
    requires row == RecordOf(c, w, attempt)
    requires answer == if w.outcome(attempt).Transport? && attempt < c.retries then Cancelled
                       else AnswerTo(site, w.outcome(attempt))
    ensures Faithful(Call(records + [row], waits, answer), site, c, w)
  {
  }

  /** `_invoke_sidecar_capability` of the knowledge base routes: settings and client anew for every call and attempt. */
  method InvokeKnowledgeBase(raw: Raw) returns (call: Call)
    ensures Faithful(call, KnowledgeBase, raw.current, Seen(KnowledgeBase, raw))
  {
    var c, w := raw.current, Seen(KnowledgeBase, raw);
    var records: seq<Record>, waits: seq<real>, wait: Option<int> := [], [], None;
    var attempt: nat := 0;
    while attempt < c.retries + 1
      invariant SoFar(records, waits, wait, attempt, c, w)
      decreases c.retries + 1 - attempt
    {
      var att := AttemptSpan(Record(attempt + 1, true, wait, Succeeded, None), false);
      var reply := raw.reply(attempt);
      var thrown := if raw.open(attempt).Some? then raw.open(attempt) else Thrown(reply);
      var answer: Answer;
      if thrown.None? {
        var data := reply.body.data;
        answer := Returned(if data.Value? then data else EmptyObject);
      } else if thrown.value.TimeoutError? {
        att := att.Fail(Some(504)).Leave(false);
        answer := TimedOut;
      } else if IsTransport(thrown.value) {
        att := att.Fail(Some(502));
        if attempt < c.retries {
          att := att.MarkFinal(false);
          wait := Some(Millis(w, attempt));
          if w.cut(attempt) {
            att := att.Leave(true);
            LastAttempt(records, waits, WaitBefore(w, attempt), attempt, c, w, att.row, Cancelled, KnowledgeBase);
            return Call(records + [att.row], waits, Cancelled);
          }
          OneMoreAttempt(records, waits, WaitBefore(w, attempt), attempt, c, w, att.row);
          waits := waits + [Positive(w.jitter(attempt))];
          records := records + [att.row];
          attempt := attempt + 1;
          continue;
        }
        att := att.Leave(false);
        answer := Unavailable;
      } else if IsBusiness(thrown.value) {
        att := att.Leave(false);
        answer := PassedOn;
      } else if IsException(thrown.value) {
        att := att.Leave(false);
        answer := if thrown.value.CodedError? then PassedOn else Unavailable;
      } else {
        att := att.Leave(true);
        answer := Cancelled;
      }
      LastAttempt(records, waits, wait, attempt, c, w, att.row, answer, KnowledgeBase);
      return Call(records + [att.row], waits, answer);
    }
    call := Call(records, waits, Nothing);
  }

  /** `_call_kb_capability_mcp`: settings read at import, and one client for all attempts; if it cannot be opened,
      nothing is tried and the exception leaves as it is. */
  method InvokeInternal(raw: Raw) returns (call: Call)
    ensures raw.open(0).None? ==> Faithful(call, Internal, raw.imported, Seen(Internal, raw))
    ensures raw.open(0).Some? ==> call == Call([], [], Unopened(raw.open(0).value))
  {
    var c, w := raw.imported, Seen(Internal, raw);
    if raw.open(0).Some? {
      return Call([], [], Unopened(raw.open(0).value));
    }
    var records: seq<Record>, waits: seq<real>, wait: Option<int> := [], [], None;
    var attempt: nat := 0;
    while attempt < c.retries + 1
      invariant SoFar(records, waits, wait, attempt, c, w)
      decreases c.retries + 1 - attempt
    {
      var att := AttemptSpan(Record(attempt + 1, true, wait, Succeeded, None), false);
      var reply := raw.reply(attempt);
      var thrown := Thrown(reply);
      var answer: Answer;
      if thrown.None? {
        var data := reply.body.data;
        answer := Returned(if data.Value? then data else EmptyObject);
      } else if thrown.value.TimeoutError? {
        att := att.Fail(Some(504)).Leave(false);
        answer := TimedOut;
      } else if IsTransport(thrown.value) {
        att := att.Fail(Some(502));
        if attempt < c.retries {
          att := att.MarkFinal(false);
          wait := Some(Millis(w, attempt));
          if w.cut(attempt) {
            att := att.Leave(true);
            LastAttempt(records, waits, WaitBefore(w, attempt), attempt, c, w, att.row, Cancelled, Internal);
            return Call(records + [att.row], waits, Cancelled);
          }
          OneMoreAttempt(records, waits, WaitBefore(w, attempt), attempt, c, w, att.row);
          waits := waits + [Positive(w.jitter(attempt))];
          records := records + [att.row];
          attempt := attempt + 1;
          continue;
        }
        att := att.Leave(false);
        answer := Unavailable;
      } else if thrown.value.InvokeError? {
        att := att.Leave(false);
        answer := PassedOn;
      } else if IsBusiness(thrown.value) {
        att := att.Leave(false);
        answer := PassedOn;
      } else if IsException(thrown.value) {
        att := att.Leave(false);
        answer := Unavailable;
      } else {
        att := att.Leave(true);
        answer := Cancelled;
      }
      LastAttempt(records, waits, wait, attempt, c, w, att.row, answer, Internal);
      return Call(records + [att.row], waits, answer);
    }
    call := Call(records, waits, Nothing);
  }

  /** `_call_bd_capability`: only a missing `data` is replaced. */
  method InvokeBusinessDomain(raw: Raw) returns (call: Call)
    ensures Faithful(call, BusinessDomain, raw.current, Seen(BusinessDomain, raw))
  {
    var c, w := raw.current, Seen(BusinessDomain, raw);
    var records: seq<Record>, waits: seq<real>, wait: Option<int> := [], [], None;
    var attempt: nat := 0;
    while attempt < c.retries + 1
      invariant SoFar(records, waits, wait, attempt, c, w)
      decreases c.retries + 1 - attempt
    {
      var att := AttemptSpan(Record(attempt + 1, true, wait, Succeeded, None), false);
      var reply := raw.reply(attempt);
      var thrown := if raw.open(attempt).Some? then raw.open(attempt) else Thrown(reply);
      var answer: Answer;
      if thrown.None? {
        var data := reply.body.data;
        answer := Returned(if data.Missing? then EmptyObject else data);
      } else if thrown.value.TimeoutError? {
        att := att.Fail(Some(504)).Leave(false);
        answer := TimedOut;
      } else if IsTransport(thrown.value) {
        att := att.Fail(Some(502));
        if attempt < c.retries {
          att := att.MarkFinal(false);
          wait := Some(Millis(w, attempt));
          if w.cut(attempt) {
            att := att.Leave(true);
            LastAttempt(records, waits, WaitBefore(w, attempt), attempt, c, w, att.row, Cancelled, BusinessDomain);
            return Call(records + [att.row], waits, Cancelled);
          }
          OneMoreAttempt(records, waits, WaitBefore(w, attempt), attempt, c, w, att.row);
          waits := waits + [Positive(w.jitter(attempt))];
          records := records + [att.row];
          attempt := attempt + 1;
          continue;
        }
        att := att.Leave(false);
        answer := Unavailable;
      } else if IsBusiness(thrown.value) {
        att := att.Leave(false);
        answer := PassedOn;
      } else if IsException(thrown.value) {
        att := att.Leave(false);
        answer := Unavailable;
      } else {
        att := att.Leave(true);
        answer := Cancelled;
      }
      LastAttempt(records, waits, wait, attempt, c, w, att.row, answer, BusinessDomain);
      return Call(records + [att.row], waits, answer);
    }
    call := Call(records, waits, Nothing);
  }

  /** `_call_tc_capability`: the `data` as it is, or nothing. */
  method InvokeTaskCenter(raw: Raw) returns (call: Call)
    ensures Faithful(call, TaskCenter, raw.current, Seen(TaskCenter, raw))
  {
    var c, w := raw.current, Seen(TaskCenter, raw);
    var records: seq<Record>, waits: seq<real>, wait: Option<int> := [], [], None;
    var attempt: nat := 0;
    while attempt < c.retries + 1
      invariant SoFar(records, waits, wait, attempt, c, w)
      decreases c.retries + 1 - attempt
    {
      var att := AttemptSpan(Record(attempt + 1, true, wait, Succeeded, None), false);
      var reply := raw.reply(attempt);
      var thrown := if raw.open(attempt).Some? then raw.open(attempt) else Thrown(reply);
      var answer: Answer;
      if thrown.None? {
        var data := reply.body.data;
        answer := Returned(if data.Missing? then Null else data);
      } else if thrown.value.TimeoutError? {
        att := att.Fail(Some(504)).Leave(false);
        answer := TimedOut;
      } else if IsTransport(thrown.value) {
        att := att.Fail(Some(502));
        if attempt < c.retries {
          att := att.MarkFinal(false);
          wait := Some(Millis(w, attempt));
          if w.cut(attempt) {
            att := att.Leave(true);
            LastAttempt(records, waits, WaitBefore(w, attempt), attempt, c, w, att.row, Cancelled, TaskCenter);
            return Call(records + [att.row], waits, Cancelled);
          }
          OneMoreAttempt(records, waits, WaitBefore(w, attempt), attempt, c, w, att.row);
          waits := waits + [Positive(w.jitter(attempt))];
          records := records + [att.row];
          attempt := attempt + 1;
          continue;
        }
        att := att.Leave(false);
        answer := Unavailable;
      } else if IsBusiness(thrown.value) {
        att := att.Leave(false);
        answer := PassedOn;
      } else if IsException(thrown.value) {
        att := att.Leave(false);
        answer := if thrown.value.CodedError? then PassedOn else Unavailable;
      } else {
        att := att.Leave(true);
        answer := Cancelled;
      }
      LastAttempt(records, waits, wait, attempt, c, w, att.row, answer, TaskCenter);
      return Call(records + [att.row], waits, answer);
    }
    call := Call(records, waits, Nothing);
  }

  // ---------- what holds of every call ----------

  /** Calls under the same settings whose attempts come to the same outcomes make the same attempts and waits,
      whatever the routes. */
  lemma SameCall(a: Call, s: Site, b: Call, t: Site, c: Config, v: World, w: World)
    requires Faithful(a, s, c, v) && Faithful(b, t, c, w) && v.jitter == w.jitter && v.cut == w.cut
    requires forall k: nat :: v.outcome(k) == w.outcome(k)
    ensures a.records == b.records && a.waits == b.waits
  {
    NotLonger(a, s, b, t, c, v, w);
    NotLonger(b, t, a, s, c, w, v);
    forall k | 0 <= k < |a.records| ensures a.records[k] == b.records[k] {
      assert v.outcome(k) == w.outcome(k);
    }
  }

  // ---------- the internal route beside the others ----------

  /** What `InvokeInternal` promises. */
  predicate InternalCall(a: Call, raw: Raw) {
    if raw.open(0).Some? then a == Call([], [], Unopened(raw.open(0).value))
    else Faithful(a, Internal, raw.imported, Seen(Internal, raw))
  }

  /** Another route makes attempt k. */
  predicate Reached(t: Site, raw: Raw, k: nat) {
    k <= raw.current.retries && forall j :: 0 <= j < k ==> Repeats(raw.current, Seen(t, raw), j)
  }

  /** Attempt k looks alike on both routes: its client opens, or fails like the request; and when it fails in
      transport, both settings try again or neither does. */
  predicate AgreesAt(t: Site, raw: Raw, k: nat) {
    var o, i := Seen(t, raw).outcome(k), Seen(Internal, raw).outcome(k);
    && (raw.open(k).None? || (StatusOf(o) == StatusOf(i) && CodeOf(o) == CodeOf(i)))
    && (o.Transport? ==> (k < raw.imported.retries <==> k < raw.current.retries))
  }

  ghost predicate AgreesWhereReached(t: Site, raw: Raw) {
    forall k: nat :: Reached(t, raw, k) ==> AgreesAt(t, raw, k)
  }

  /** The internal route makes the same attempts and waits as another one exactly when neither makes any, or its
      client opens, its settings allow an attempt, and all attempts that the other one makes look alike. */
  lemma InternalAgreesIff(a: Call, b: Call, t: Site, raw: Raw)
    requires !t.Internal? && InternalCall(a, raw) && Faithful(b, t, raw.current, Seen(t, raw))
    ensures a.records == b.records && a.waits == b.waits <==>
            if raw.current.retries < 0 then raw.open(0).Some? || raw.imported.retries < 0
            else raw.open(0).None? && raw.imported.retries >= 0 && AgreesWhereReached(t, raw)
  {
    if raw.current.retries >= 0 && raw.open(0).None? && raw.imported.retries >= 0 {
      if AgreesWhereReached(t, raw) {
        AlikeIsSame(a, b, t, raw);
      }
      if a.records == b.records {
        forall k: nat | Reached(t, raw, k) ensures AgreesAt(t, raw, k) {
          SameIsAlike(a, b, t, raw, k);
        }
      }
    }
  }

  /** An attempt that looks alike is repeated alike and recorded alike. */
  lemma AlikeAttempt(t: Site, raw: Raw, k: nat)
    requires !t.Internal? && AgreesAt(t, raw, k)
    ensures Repeats(raw.imported, Seen(Internal, raw), k) <==> Repeats(raw.current, Seen(t, raw), k)
    ensures RecordOf(raw.imported, Seen(Internal, raw), k) == RecordOf(raw.current, Seen(t, raw), k)
  {
    assert raw.open(k).None? ==> Seen(t, raw).outcome(k) == Seen(Internal, raw).outcome(k);
  }

  lemma AttemptsAreReached(b: Call, t: Site, raw: Raw, k: nat)
    requires Faithful(b, t, raw.current, Seen(t, raw)) && raw.current.retries >= 0
    ensures k < |b.records| <==> Reached(t, raw, k)
  {
    var n := |b.records|;
    assert !Repeats(raw.current, Seen(t, raw), n - 1);
    if k < n && k > 0 {
      assert Repeats(raw.current, Seen(t, raw), k - 1);
    }
  }

  lemma AlikeIsSame(a: Call, b: Call, t: Site, raw: Raw)
    requires !t.Internal? && Faithful(a, Internal, raw.imported, Seen(Internal, raw)) && raw.imported.retries >= 0
    requires Faithful(b, t, raw.current, Seen(t, raw)) && raw.current.retries >= 0 && AgreesWhereReached(t, raw)
    ensures a.records == b.records && a.waits == b.waits
  {
    forall k | 0 <= k < |b.records|
      ensures Repeats(raw.imported, Seen(Internal, raw), k) <==> Repeats(raw.current, Seen(t, raw), k)
      ensures RecordOf(raw.imported, Seen(Internal, raw), k) == RecordOf(raw.current, Seen(t, raw), k)
    {
      AttemptsAreReached(b, t, raw, k);
      AlikeAttempt(t, raw, k);
    }
    SameLength(a, b, t, raw);
  }

  /** Two calls repeat the same attempts up to the end of one of them, so they end there both. */
  lemma SameLength(a: Call, b: Call, t: Site, raw: Raw)
    requires Faithful(a, Internal, raw.imported, Seen(Internal, raw)) && raw.imported.retries >= 0
    requires Faithful(b, t, raw.current, Seen(t, raw)) && raw.current.retries >= 0
    requires forall k :: 0 <= k < |b.records| ==>
                           (Repeats(raw.imported, Seen(Internal, raw), k) <==> Repeats(raw.current, Seen(t, raw), k))
    ensures |a.records| == |b.records|
  {
    var m, n := |a.records|, |b.records|;
    assert !Repeats(raw.imported, Seen(Internal, raw), m - 1) && !Repeats(raw.current, Seen(t, raw), n - 1);
  }

  lemma SameIsAlike(a: Call, b: Call, t: Site, raw: Raw, k: nat)
    requires !t.Internal? && Faithful(a, Internal, raw.imported, Seen(Internal, raw))
    requires Faithful(b, t, raw.current, Seen(t, raw)) && raw.current.retries >= 0
    requires a.records == b.records && Reached(t, raw, k)
    ensures AgreesAt(t, raw, k)
  {
    AttemptsAreReached(b, t, raw, k);
    assert a.records[k] == RecordOf(raw.imported, Seen(Internal, raw), k);
    assert b.records[k] == RecordOf(raw.current, Seen(t, raw), k);
  }

  /** The three routes that open a client for every attempt make the same attempts and waits; so does the internal
      one when its settings are still those of the environment and no client fails to open. */
  lemma SitesAgree(a: Call, s: Site, b: Call, t: Site, raw: Raw)
    requires Faithful(a, s, SettingsOf(s, raw), Seen(s, raw)) && Faithful(b, t, SettingsOf(t, raw), Seen(t, raw))
    requires s.Internal? != t.Internal? ==> raw.imported == raw.current && forall k: nat :: raw.open(k).None?
    ensures a.records == b.records && a.waits == b.waits
  {
    if s.Internal? == t.Internal? {
      SameCall(a, s, b, t, SettingsOf(s, raw), Seen(s, raw), Seen(t, raw));
    } else if s.Internal? {
      InternalAgreesIff(a, b, t, raw);
    } else {
      InternalAgreesIff(b, a, s, raw);
    }
  }

  /** And when the first client cannot be opened the internal route records nothing, and the others record an
      attempt, unless their settings forbid any. */
  lemma UnopenedDiffers(a: Call, b: Call, t: Site, raw: Raw)
    requires !t.Internal? && InternalCall(a, raw) && Faithful(b, t, raw.current, Seen(t, raw)) && raw.open(0).Some?
    ensures a.records == [] && (a.records == b.records && a.waits == b.waits <==> raw.current.retries < 0)
  {
    InternalAgreesIff(a, b, t, raw);
  }

  lemma NotLonger(a: Call, s: Site, b: Call, t: Site, c: Config, v: World, w: World)
    requires Faithful(a, s, c, v) && Faithful(b, t, c, w) && v.cut == w.cut
    requires forall k: nat :: v.outcome(k) == w.outcome(k)
    ensures |a.records| <= |b.records|
  {
    var n := |b.records|;
    if n > 0 {
      assert !Repeats(c, w, n - 1) && v.outcome(n - 1) == w.outcome(n - 1);
      assert !Repeats(c, v, n - 1);
    }
  }

  /** A call makes at most one attempt more than its retries, and every attempt but the last failed in transport.
      So nothing is sent again after a timeout, an answer, or a cancellation; it may be after another transport
      error, even one that came after the request was received. */
  lemma NoResendAfterTimeout(call: Call, site: Site, c: Config, w: World, k: nat)
    requires Faithful(call, site, c, w) && k < |call.records|
    ensures |call.records| <= c.retries + 1
    ensures !w.outcome(k).Transport? ==> k == |call.records| - 1
    ensures w.outcome(k).Timeout? ==> call.answer == TimedOut
    ensures (k == |call.records| - 1 && w.outcome(k).Transport?) ==> k == c.retries || w.cut(k)
  {
    if k < |call.records| - 1 {
      assert Repeats(c, w, k);
    }
    if |call.records| > 1 {
      assert Repeats(c, w, |call.records| - 2);
    }
  }

  /** Exactly the last attempt is marked final, unless the call is cut in the wait after it: then none is. */
  lemma FinalIsLastIff(call: Call, site: Site, c: Config, w: World, k: nat)
    requires Faithful(call, site, c, w) && k < |call.records|
    ensures call.records[k].final <==> k == |call.records| - 1 && !WaitsLast(call, c, w)
    ensures WaitsLast(call, c, w) ==> w.cut(|call.records| - 1)
  {
    if k < |call.records| - 1 {
      assert Repeats(c, w, k);
    }
  }

  function Sum(xs: seq<real>): real {
    if xs == [] then 0.0 else Sum(xs[..|xs| - 1]) + xs[|xs| - 1]
  }

  function Bound(c: Config, n: nat): real {
    if n == 0 then 0.0 else Bound(c, n - 1) + Positive(Delay(c, n - 1))
  }

  lemma {:induction false} SumBound(c: Config, w: World, xs: seq<real>)
    requires Fair(c, w) && forall k :: 0 <= k < |xs| ==> xs[k] == Positive(w.jitter(k))
    ensures 0.0 <= Sum(xs) <= Bound(c, |xs|)
  {
    if xs != [] {
      SumBound(c, w, xs[..|xs| - 1]);
      assert Positive(w.jitter(|xs| - 1)) <= Positive(Delay(c, |xs| - 1));
    }
  }

  /** x, n times */
  function Repeated(x: real, n: nat): real {
    if n == 0 then 0.0 else Repeated(x, n - 1) + x
  }

  lemma {:induction false} RepeatedIs(x: real, n: nat)
    ensures Repeated(x, n) == n as real * x
  {
    if n > 0 {
      RepeatedIs(x, n - 1);
      OneMore((n - 1) as real, x);
      assert (n - 1) as real + 1.0 == n as real;
    }
  }

  lemma OneMore(n: real, x: real)
    ensures n * x + x == (n + 1.0) * x
  {
  }

  lemma {:induction false} CapBound(c: Config, n: nat)
    ensures Bound(c, n) <= Repeated(Positive(c.cap), n)
  {
    if n > 0 {
      CapBound(c, n - 1);
      assert Positive(Delay(c, n - 1)) <= Positive(c.cap);
    }
  }

  /** The delays without a cap. */
  function Doubling(base: real, n: nat): real {
    if n == 0 then 0.0 else Doubling(base, n - 1) + base * Power(n - 1)
  }

  lemma {:induction false} DoublingBound(c: Config, n: nat)
    ensures Bound(c, n) <= Doubling(Positive(c.base), n)
  {
    if n > 0 {
      DoublingBound(c, n - 1);
      DelayBelow(c, n - 1);
    }
  }

  lemma DelayBelow(c: Config, k: nat)
    ensures Positive(Delay(c, k)) <= Doubling(Positive(c.base), k + 1) - Doubling(Positive(c.base), k)
  {
    var p := Power(k);
    PositiveDelay(c, p);
    assert Doubling(Positive(c.base), k + 1) == Doubling(Positive(c.base), k) + Positive(c.base) * p;
  }

  lemma {:induction false} DoublingIs(base: real, n: nat)
    ensures Doubling(base, n) == base * (Power(n) - 1.0)
  {
    if n > 0 {
      DoublingIs(base, n - 1);
      DoubleStep(base, Power(n - 1));
    }
  }

  lemma DoubleStep(base: real, p: real)
    ensures base * (p - 1.0) + base * p == base * (2.0 * p - 1.0)
  {
  }

  lemma PositiveDelay(c: Config, p: real)
    requires p >= 1.0
    ensures Positive(Min(c.base * p, c.cap)) <= Positive(c.base) * p
  {
    if c.base < 0.0 {
      assert c.base * p <= 0.0;
    }
  }

  /** A call waits in total at most the cap per retry, and at most the doubling delays from the base, whatever
      the draws and however the attempts end. */
  lemma TotalWait(call: Call, site: Site, c: Config, w: World)
    requires Faithful(call, site, c, w) && Fair(c, w) && c.retries >= 0
    ensures 0.0 <= Sum(call.waits) <= Repeated(Positive(c.cap), c.retries)
    ensures Sum(call.waits) <= Doubling(Positive(c.base), c.retries)
  {
    WaitBelowBound(call, site, c, w);
    BoundBelow(c, Sum(call.waits), c.retries);
  }

  lemma BoundBelow(c: Config, x: real, n: nat)
    requires x <= Bound(c, n)
    ensures x <= Repeated(Positive(c.cap), n) && x <= Doubling(Positive(c.base), n)
  {
    CapBound(c, n);
    DoublingBound(c, n);
  }

  lemma WaitBelowBound(call: Call, site: Site, c: Config, w: World)
    requires Faithful(call, site, c, w) && Fair(c, w) && c.retries >= 0
    ensures 0.0 <= Sum(call.waits) <= Bound(c, c.retries)
  {
    NoResendAfterTimeout(call, site, c, w, 0);
    SumBound(c, w, call.waits);
    BoundGrows(c, |call.waits|, c.retries);
  }

  lemma {:induction false} BoundGrows(c: Config, m: nat, n: nat)
    requires m <= n
    ensures Bound(c, m) <= Bound(c, n)
  {
    if m < n {
      BoundGrows(c, m, n - 1);
    }
  }

  // ---------- the answer, from what was raised or returned ----------

  /** The request comes to nothing but this exception. */
  predicate ReplyRaises(r: Reply, e: Exn) {
    match r
    case Raises(x) => x == e
    case Responds(code, Envelope(success, _, error)) => (code != 200 || !success) && error == e
    case Responds(_, _) => e == PlainError
  }

  /** Attempt k raises the exception, on opening its client or in the request. */
  predicate RaisedAt(site: Site, raw: Raw, k: nat, e: Exn) {
    if site != Internal && raw.open(k).Some? then raw.open(k) == Some(e) else ReplyRaises(raw.reply(k), e)
  }

  /** Attempt k gets a successful envelope with the data. */
  predicate ReturnedAt(site: Site, raw: Raw, k: nat, data: Data) {
    (site == Internal || raw.open(k).None?)
    && match raw.reply(k)
       case Responds(code, Envelope(success, x, _)) => code == 200 && success && x == data
       case _ => false
  }

  /** What a route gives back for the data of a reply. */
  predicate GivesBack(site: Site, data: Data, given: Data) {
    match site
    case KnowledgeBase => given == if data.Value? then data else EmptyObject
    case Internal => given == if data.Value? then data else EmptyObject
    case BusinessDomain => if data == Missing then given == EmptyObject else given == data
    case TaskCenter => if data == Missing then given == Null else given == data
  }

  /** The answer of a call, exactly, by what its last attempt raised or returned. */
  lemma AnswerIff(call: Call, site: Site, raw: Raw)
    requires Faithful(call, site, SettingsOf(site, raw), Seen(site, raw)) && call.records != []
    ensures var k := |call.records| - 1;
            var again := RaisedAt(site, raw, k, TransportError) && k < SettingsOf(site, raw).retries;
            && (call.answer == Cancelled <==> again || RaisedAt(site, raw, k, CancelError))
            && (call.answer == TimedOut <==> RaisedAt(site, raw, k, TimeoutError))
            && (call.answer == PassedOn <==>
                  || RaisedAt(site, raw, k, InvokeError) || RaisedAt(site, raw, k, BusinessError)
                  || (RaisedAt(site, raw, k, CodedError) && (site == KnowledgeBase || site == TaskCenter)))
            && (call.answer == Unavailable <==>
                  || (RaisedAt(site, raw, k, TransportError) && !again) || RaisedAt(site, raw, k, PlainError)
                  || (RaisedAt(site, raw, k, CodedError) && (site == Internal || site == BusinessDomain)))
            && (call.answer.Returned? <==> exists data :: ReturnedAt(site, raw, k, data))
            && (forall data :: ReturnedAt(site, raw, k, data) ==> call.answer.Returned? && GivesBack(site, data, call.answer.data))
  {
    var k := |call.records| - 1;
    RaisesOrReturns(site, raw, k);
    var o := Seen(site, raw).outcome(k);
    assert o.Success? ==> ReturnedAt(site, raw, k, o.data);
  }

  /** The outcome of an attempt is the kind of what it raised, or success with what it returned. */
  lemma RaisesOrReturns(site: Site, raw: Raw, k: nat)
    ensures var o := Seen(site, raw).outcome(k);
            && (o.Success? <==> exists data :: ReturnedAt(site, raw, k, data))
            && (forall data :: ReturnedAt(site, raw, k, data) ==> o == Success(data))
            && (forall e :: RaisedAt(site, raw, k, e) ==>
                  o == match e
                       case TimeoutError => Timeout
                       case TransportError => Transport
                       case InvokeError => Business
                       case BusinessError => Business
                       case CodedError => Unexpected(true)
                       case PlainError => Unexpected(false)
                       case CancelError => Cut)
            && (o.Success? || exists e :: RaisedAt(site, raw, k, e))
  {
    var opening, r := if site.Internal? then None else raw.open(k), raw.reply(k);
    if opening.Some? {
      assert RaisedAt(site, raw, k, opening.value);
    } else if Thrown(r).Some? {
      assert RaisedAt(site, raw, k, Thrown(r).value);
    } else {
      assert ReturnedAt(site, raw, k, r.body.data);
    }
  }

  /** What the monitor gets of attempt k, by what the attempt raised or returned. */
  lemma RecordIff(call: Call, site: Site, raw: Raw, k: nat)
    requires Faithful(call, site, SettingsOf(site, raw), Seen(site, raw)) && k < |call.records|
    ensures var r := call.records[k];
            && r.number == k + 1 && (r.waitBefore.Some? <==> k > 0)
            && (r.status == Succeeded <==> exists data :: ReturnedAt(site, raw, k, data))
            && (r.status == CancelledStatus <==> RaisedAt(site, raw, k, CancelError))
            && (r.code == Some(504) <==> RaisedAt(site, raw, k, TimeoutError))
            && (r.code == Some(502) <==> RaisedAt(site, raw, k, TransportError))
            && (r.code == None || r.code == Some(504) || r.code == Some(502))
            && (r.final <==> !(RaisedAt(site, raw, k, TransportError) && k < SettingsOf(site, raw).retries))
  {
    RaisesOrReturns(site, raw, k);
    assert call.records[k] == RecordOf(SettingsOf(site, raw), Seen(site, raw), k);
  }
}
