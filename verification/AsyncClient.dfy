/** The physical client as an object. Each method is the code of a coroutine between two suspension
    points, except the reconnect loop, which is run whole against an oracle for its connects. */
module AsyncClient {
  import opened Mqtt
  import opened Errors
  import opened Reconnect

  /** The outcome of one connect: the handshake's error, then the MQTT start's error. */
  datatype Outcome = Outcome(handshake: RawError, start: RawError) {
    predicate Connects() {
      handshake == NoError && start == NoError
    }

    function Error(): ErrorCode {
      MapErr(if handshake != NoError then handshake else start)
    }
  }

  /** What else happens while a loop iteration sleeps, shakes hands, and starts. */
  datatype Others = Others(sleeping: seq<Event>, handshaking: seq<Event>, starting: seq<Event>)

  function Sum(ns: seq<nat>): nat {
    if ns == [] then 0 else Sum(ns[..|ns| - 1]) + ns[|ns| - 1]
  }

  class AsyncMqttClient {
    var state: Conn
    var attempt: nat
    const maxAttempts: nat
    /** Suspended calls; the source keeps them in coroutine frames and in the timer's waiters. */
    var recvs: map<RecvId, Frame>
    var calls: map<CallId, Call>
    ghost var history: seq<Event>

    function Model(): Client
      reads this
    {
      Client(state, attempt, maxAttempts, recvs, calls)
    }

    ghost predicate Valid()
      reads this
    {
      ValidRun(Initial(maxAttempts), history) && Model() == Run(Initial(maxAttempts), history)
    }

    ghost method Record(e: Event)
      requires ValidRun(Initial(maxAttempts), history)
      requires Enabled(Run(Initial(maxAttempts), history), e)
      requires Model() == Step(Run(Initial(maxAttempts), history), e)
      modifies `history
      ensures Valid() && history == old(history) + [e]
    {
      ExtendRun(Initial(maxAttempts), history, e);
      history := history + [e];
    }

    constructor (maxAttempts: nat)
      ensures Valid() && history == [] && this.maxAttempts == maxAttempts
    {
      state, attempt, this.maxAttempts := Closed, 0, maxAttempts;
      recvs, calls, history := map[], map[], [];
    }

    lemma ValidImpliesInv()
      requires Valid()
      ensures Inv(Model()) && Reachable(Model(), maxAttempts)
    {
      RunKeepsInv(Initial(maxAttempts), history);
    }

    /** Cancel the reconnect timer: every parked call is woken. */
    method CancelTimer()
      modifies `calls
      ensures calls == WakeAll(old(calls))
    {
      calls := map k | k in calls :: if calls[k].Parked? then Woken else calls[k];
    }

    /** The connect coroutine, with the outcomes of its two suspensions. */
    method Connect(outcome: Outcome) returns (err: ErrorCode)
      modifies `state, `attempt
      ensures err == outcome.Error()
      ensures outcome.Connects() ==> state == Connected && attempt == 0
      ensures !outcome.Connects() ==> state == old(state) && attempt == old(attempt)
    {
      if outcome.handshake != NoError {
        return MapErr(outcome.handshake);
      }
      if outcome.start != NoError {
        return MapErr(outcome.start);
      }
      state := Connected;
      attempt := 0;
      return Success;
    }

    /** The application's connect, allowed while closed with no reconnect loop active. */
    method ConnectExplicitly(outcome: Outcome) returns (err: ErrorCode)
      requires Valid() && state == Closed && forall r :: r in recvs ==> !InLoop(Model(), r)
      modifies this
      ensures Valid() && err == outcome.Error()
      ensures state == if outcome.Connects() then Connected else Closed
      ensures history == old(history) + [ConnectDone(if outcome.handshake != NoError then outcome.handshake else outcome.start)]
    {
      err := Connect(outcome);
      Record(ConnectDone(if outcome.handshake != NoError then outcome.handshake else outcome.start));
    }

    /** The end of a close or disconnect call. */
    method Close(ec: RawError) returns (err: ErrorCode)
      requires Valid()
      modifies this
      ensures Valid() && history == old(history) + [CloseDone] && err == MapErr(ec)
      ensures state == Closed && calls == WakeAll(old(calls)) && recvs == old(recvs)
    {
      state := Closed;
      CancelTimer();
      err := MapErr(ec);
      Record(CloseDone);
    }

    /** The check that guards the transport. */
    method PassGate(k: CallId) returns (refused: Option<ErrorCode>)
      modifies `calls
      ensures calls == old(calls)[k := Gate(Model())]
      ensures refused == if state == Connected then None else Some(NotConnected)
    {
      if state != Connected {
        calls := calls[k := Finished(NotConnected)];
        return Some(NotConnected);
      }
      calls := calls[k := InTransport];
      return None;
    }

    /** A publish or subscribe, up to its first suspension: refused at once, or parked, or in the
        transport. */
    method BeginCall(k: CallId) returns (refused: Option<ErrorCode>)
      requires Valid() && Enabled(Model(), CallStart(k))
      modifies this
      ensures Valid() && history == old(history) + [CallStart(k)]
      ensures refused == if state == Closed then Some(NotConnected) else None
      ensures calls == old(calls)[k := if state == Reconnecting then Parked else Gate(Model())] && state == old(state)
    {
      refused := None;
      if state == Reconnecting {
        calls := calls[k := Parked];
      } else {
        refused := PassGate(k);
      }
      Record(CallStart(k));
    }

    method ResumeCall(k: CallId) returns (refused: Option<ErrorCode>)
      requires Valid() && Enabled(Model(), CallResume(k))
      modifies this
      ensures Valid() && history == old(history) + [CallResume(k)]
      ensures refused == if state == Connected then None else Some(NotConnected)
    {
      refused := PassGate(k);
      Record(CallResume(k));
    }

    method EndCall(k: CallId, ec: RawError) returns (err: ErrorCode)
      requires Valid() && Enabled(Model(), CallDone(k, ec))
      modifies this
      ensures Valid() && history == old(history) + [CallDone(k, ec)]
      ensures err == MapErr(ec) && k in calls && calls[k] == Finished(err)
    {
      err := MapErr(ec);
      calls := calls[k := Finished(err)];
      Record(CallDone(k, ec));
    }

    method BeginRecv(r: RecvId)
      requires Valid() && Enabled(Model(), RecvStart(r))
      modifies this
      ensures Valid() && history == old(history) + [RecvStart(r)]
    {
      recvs := recvs[r := Waiting];
      Record(RecvStart(r));
    }

    /** The transport returned: a packet, which is handed on as it is, or nothing that is one. */
    method EndRecv(r: RecvId, packet: Option<Packet>) returns (result: RecvResult)
      requires Valid() && r in recvs && recvs[r].Waiting?
      modifies this
      ensures Valid()
      ensures history == old(history) + [if packet.Some? then PacketArrived(r, packet.value) else NoPacket(r)]
      ensures result == if packet.Some? then Received(packet.value) else Failed(InvalidPacket)
      ensures recvs == old(recvs)[r := Returned(result, 0)] && state == old(state)
    {
      result := if packet.Some? then Received(packet.value) else Failed(InvalidPacket);
      recvs := recvs[r := Returned(result, 0)];
      Record(if packet.Some? then PacketArrived(r, packet.value) else NoPacket(r));
    }

    /** A receive that broke while the client is not connected does not reconnect. */
    method RefuseReconnect(r: RecvId) returns (err: ErrorCode)
      requires Valid() && r in recvs && recvs[r].Waiting? && state != Connected
      modifies this
      ensures Valid() && history == old(history) + [TransportBroken(r)]
      ensures err == (if old(state) == Closed then Disconnected else InternalError) && HasReturned(r, err)
    {
      err := if state == Closed then Disconnected else InternalError;
      recvs := recvs[r := Returned(Failed(err), 0)];
      Record(TransportBroken(r));
    }

    /** A step of anything else, if it can happen now: closes, other calls and other receives. */
    method Interfere(r: RecvId, e: Event)
      requires Valid() && InLoop(Model(), r)
      modifies this
      ensures Valid() && LoopUntouched(r)
      ensures history == old(history) + (if Enabled(old(Model()), e) && !LoopStep(e, r) then [e] else [])
    {
      if !Enabled(Model(), e) || LoopStep(e, r) {
        return;
      }
      ValidImpliesInv();
      OtherStepsKeepLoop(Model(), e, r);
      match e
      case CloseDone => var _ := Close(NoError);
      case CallStart(k) => var _ := BeginCall(k);
      case CallResume(k) => var _ := ResumeCall(k);
      case CallDone(k, ec) => var _ := EndCall(k, ec);
      case RecvStart(other) => BeginRecv(other);
      case PacketArrived(other, packet) => var _ := EndRecv(other, Some(packet));
      case NoPacket(other) => var _ := EndRecv(other, None);
      case TransportBroken(other) => var _ := RefuseReconnect(other);
      case _ => assert false;
    }

    /** Nothing else touches the loop of `r`. */
    twostate predicate LoopUntouched(r: RecvId)
      reads this
    {
      && r in recvs && r in old(recvs) && recvs[r] == old(recvs[r]) && attempt == old(attempt)
      && old(history) <= history
    }

    /** What happens while the loop is suspended once. */
    method Suspend(r: RecvId, others: seq<Event>)
      requires Valid() && InLoop(Model(), r)
      modifies this
      ensures Valid() && LoopUntouched(r)
    {
      for i := 0 to |others|
        invariant Valid() && LoopUntouched(r)
      {
        Interfere(r, others[i]);
      }
    }

    /** One backoff sleep. */
    method Sleep(r: RecvId, delay: nat, others: seq<Event>) returns (next: nat)
      requires Valid() && r in recvs && recvs[r].Sleeping? && recvs[r].l.delay == delay
      modifies this
      ensures Valid() && attempt == old(attempt) && old(history) <= history
      ensures next == Min(delay * 2, MAX_DELAY)
      ensures r in recvs && recvs[r] == Handshaking(Locals(next, old(recvs[r].l.err), old(recvs[r].l.slept) + delay))
    {
      Suspend(r, others);
      next := Min(delay * 2, MAX_DELAY);
      recvs := recvs[r := Handshaking(Locals(next, recvs[r].l.err, recvs[r].l.slept + delay))];
      Record(SleepOver(r));
    }

    /** The handshake, and the step in which the transport reported it done; if it was, the start. */
    method Shake(r: RecvId, outcome: Outcome, others: Others)
      requires Valid() && r in recvs && recvs[r].Handshaking?
      modifies this
      ensures Valid() && r in recvs && attempt == old(attempt) && old(history) <= history
      ensures recvs[r] == if outcome.handshake == NoError then Starting(old(recvs[r].l)) else old(recvs[r])
    {
      Suspend(r, others.handshaking);
      if outcome.handshake == NoError {
        recvs := recvs[r := Starting(recvs[r].l)];
        Record(HandshakeDone(r, NoError));
        Suspend(r, others.starting);
      }
    }

    /** The loop test `attempt++ < max_attempts`: arm the next sleep, or give up. */
    method TestLoop(r: RecvId, l: Locals, ghost e: Event) returns (more: bool)
      requires ValidRun(Initial(maxAttempts), history) && Enabled(Run(Initial(maxAttempts), history), e)
      requires Step(Run(Initial(maxAttempts), history), e) == LoopTest(Model(), r, l)
      modifies this
      ensures Valid() && Model() == LoopTest(old(Model()), r, l) && history == old(history) + [e]
      ensures more <==> old(attempt) < maxAttempts
    {
      more := attempt < maxAttempts;
      attempt := attempt + 1;
      if more {
        recvs := recvs[r := Sleeping(l)];
      } else {
        state := Closed;
        CancelTimer();
        recvs := recvs[r := Returned(Failed(l.err), l.slept)];
      }
      Record(e);
    }

    /** The connect of one loop iteration, followed by the success exit or the next loop test. */
    method TryConnect(r: RecvId, outcome: Outcome, others: Others) returns (err: ErrorCode, more: bool)
      requires Valid() && r in recvs && recvs[r].Handshaking?
      modifies this
      ensures Valid() && err == outcome.Error() && more == (err != Success && old(attempt) < maxAttempts)
      ensures err == Success ==> Model().conn == Connected && attempt == 0
      ensures err == Success ==> r in recvs && recvs[r] == Returned(Failed(SessionReset), old(recvs[r].l.slept))
      ensures err != Success ==> attempt == old(attempt) + 1 && (!more ==> state == Closed)
      ensures err != Success && more ==> r in recvs && recvs[r] == Sleeping(old(recvs[r].l).(err := err))
      ensures err != Success && !more ==> r in recvs && recvs[r] == Returned(Failed(err), old(recvs[r].l.slept))
      ensures old(history) <= history
    {
      var l := recvs[r].l;
      Shake(r, outcome, others);
      err := Connect(outcome);
      if err == Success {
        state := Connected;
        CancelTimer();
        recvs := recvs[r := Returned(Failed(SessionReset), l.slept)];
        Record(StartDone(r, NoError));
        more := false;
      } else {
        ghost var e := if outcome.handshake != NoError then HandshakeDone(r, outcome.handshake) else StartDone(r, outcome.start);
        more := TestLoop(r, l.(err := err), e);
      }
    }

    /** One loop iteration: sleep, double the delay, connect. */
    method Iterate(r: RecvId, delay: nat, outcome: Outcome, others: Others)
      returns (next: nat, err: ErrorCode, more: bool)
      requires Valid() && AboutToSleep(r, delay)
      modifies this
      ensures Valid() && more == (err != Success && old(attempt) < maxAttempts)
      ensures err == outcome.Error()
      ensures next == Min(delay * 2, MAX_DELAY)
      ensures err == Success ==> state == Connected && attempt == 0 && HasReturned(r, SessionReset)
      ensures err != Success ==> attempt == old(attempt) + 1
      ensures more ==> AboutToSleep(r, next)
      ensures err != Success && !more ==> state == Closed && HasReturned(r, err)
      ensures old(history) <= history
    {
      next := Sleep(r, delay, others.sleeping);
      err, more := TryConnect(r, outcome, others);
    }

    ghost predicate AboutToSleep(r: RecvId, delay: nat)
      reads this
    {
      r in recvs && recvs[r].Sleeping? && recvs[r].l.delay == delay
    }

    ghost predicate HasReturned(r: RecvId, err: ErrorCode)
      reads this
    {
      r in recvs && recvs[r].Returned? && recvs[r].result == Failed(err)
    }

    /** After these sleeps, all followed by failed connects: the loop is about to sleep again, or it has
        given up with the last error. */
    ghost predicate LoopStands(r: RecvId, outcomes: nat -> Outcome, sleeps: seq<nat>, delay: nat, err: ErrorCode, more: bool)
      reads this
    {
      && attempt == |sleeps| + 1 <= maxAttempts + 1
      && (more <==> attempt <= maxAttempts)
      && (if more then AboutToSleep(r, delay) else state == Closed && HasReturned(r, err))
      && DoublingSoFar(sleeps, delay) && AllFail(outcomes, |sleeps|)
      && err == LastError(outcomes, |sleeps|)
    }

    /** One turn of the loop: the next sleep and connect, and the loop test unless it connected. */
    method Turn(r: RecvId, outcomes: nat -> Outcome, others: nat -> Others, sleeps: seq<nat>, delay: nat, ghost last: ErrorCode)
      returns (sleeps': seq<nat>, next: nat, err: ErrorCode, more: bool)
      requires Valid() && LoopStands(r, outcomes, sleeps, delay, last, true)
      modifies this
      ensures Valid() && old(history) <= history
      ensures |sleeps'| == |sleeps| + 1 <= maxAttempts && DoublingSoFar(sleeps', next)
      ensures err == outcomes(|sleeps|).Error() && err != SessionReset
      ensures err == Success <==> outcomes(|sleeps|).Connects()
      ensures err == Success ==> state == Connected && attempt == 0 && HasReturned(r, SessionReset)
      ensures err != Success ==> attempt == old(attempt) + 1 && LoopStands(r, outcomes, sleeps', next, err, more)
    {
      sleeps' := LogSleep(sleeps, delay);
      next, err, more := Iterate(r, delay, outcomes(|sleeps|), others(|sleeps|));
    }

    /** The loop test passed once; run the loop to its end. */
    method ReconnectLoop(r: RecvId, outcomes: nat -> Outcome, others: nat -> Others)
      returns (err: ErrorCode, sleeps: seq<nat>)
      requires Valid() && AboutToSleep(r, 1) && attempt == 1 <= maxAttempts
      modifies this
      ensures Valid() && HasReturned(r, err) && old(history) <= history
      ensures 0 < |sleeps| <= maxAttempts && CappedDoubling(sleeps)
      ensures AllFail(outcomes, |sleeps| - 1)
      ensures err == SessionReset <==> outcomes(|sleeps| - 1).Connects()
      ensures err == SessionReset ==> state == Connected && attempt == 0
      ensures err != SessionReset ==>
        |sleeps| == maxAttempts && state == Closed && err == outcomes(maxAttempts - 1).Error() && err != Success
    {
      var delay, more := 1, true;
      sleeps, err := [], Success;
      while more
        invariant Valid() && old(history) <= history
        invariant LoopStands(r, outcomes, sleeps, delay, err, more)
        decreases maxAttempts + 1 - attempt
      {
        sleeps, delay, err, more := Turn(r, outcomes, others, sleeps, delay, err);
        if err == Success {
          return SessionReset, sleeps;
        }
      }
    }

    /** The reconnect handler of one receive call. `outcomes` answers its connects, and `others` says
        what the application, the other calls and the other receives do at each of its suspensions.
        Whatever that is, the n-th sleep is the capped doubling and the loop ends at the first
        success or after the last attempt, with that attempt's error; closing does not stop it. */
    method HandleReconnect(r: RecvId, outcomes: nat -> Outcome, others: nat -> Others)
      returns (err: ErrorCode, sleeps: seq<nat>)
      requires Valid() && r in recvs && recvs[r].Waiting?
      modifies this
      ensures Valid() && HasReturned(r, err) && old(history) + [TransportBroken(r)] <= history
      ensures old(state) == Closed ==> err == Disconnected && sleeps == []
      ensures old(state) == Reconnecting ==> err == InternalError && sleeps == []
      ensures |sleeps| <= maxAttempts && CappedDoubling(sleeps)
      ensures sleeps != [] ==> AllFail(outcomes, |sleeps| - 1)
      ensures err == SessionReset <==> sleeps != [] && outcomes(|sleeps| - 1).Connects()
      ensures err == SessionReset ==> state == Connected && attempt == 0
      ensures old(state) == Connected && err != SessionReset ==> |sleeps| == maxAttempts && state == Closed
      ensures old(state) == Connected && err != SessionReset && maxAttempts > 0 ==>
        err == outcomes(maxAttempts - 1).Error()
      ensures err == Success <==> old(state) == Connected && maxAttempts == 0
    {
      sleeps := [];
      if state != Connected {
        err := RefuseReconnect(r);
        return;
      }
      ValidImpliesInv();
      err := Success;
      state := Reconnecting;
      CancelTimer();
      var more := TestLoop(r, Locals(1, err, 0), TransportBroken(r));
      if more {
        err, sleeps := ReconnectLoop(r, outcomes, others);
      }
    }
  }

  ghost predicate DoublingSoFar(sleeps: seq<nat>, delay: nat) {
    CappedDoubling(sleeps) && delay == Backoff(|sleeps| + 1)
  }

  /** One more sleep of the capped doubling; the next delay then continues the pattern. */
  function LogSleep(sleeps: seq<nat>, delay: nat): (r: seq<nat>)
    requires DoublingSoFar(sleeps, delay)
    ensures DoublingSoFar(r, Min(delay * 2, MAX_DELAY)) && |r| == |sleeps| + 1
  {
    BackoffNext(|sleeps| + 1);
    sleeps + [delay]
  }

  /** The error of the n-th connect, and success before the first. */
  ghost function LastError(outcomes: nat -> Outcome, n: nat): ErrorCode {
    if n == 0 then Success else outcomes(n - 1).Error()
  }

  ghost predicate AllFail(outcomes: nat -> Outcome, n: nat) {
    forall i: nat :: i < n ==> !outcomes(i).Connects()
  }

  ghost predicate CappedDoubling(sleeps: seq<nat>) {
    forall i :: 0 <= i < |sleeps| ==> sleeps[i] == Backoff(i + 1)
  }

  /** What the loop slept altogether, in seconds. */
  lemma {:induction false} CappedDoublingTotal(sleeps: seq<nat>)
    requires CappedDoubling(sleeps)
    ensures Sum(sleeps) == TotalSleep(|sleeps|)
    ensures Sum(sleeps) == if |sleeps| <= 5 then Pow2(|sleeps|) - 1 else 31 + 30 * (|sleeps| - 5)
    ensures |sleeps| <= DEFAULT_MAX_ATTEMPTS ==> Sum(sleeps) <= 181
  {
    if sleeps != [] {
      CappedDoublingTotal(sleeps[..|sleeps| - 1]);
    }
    TotalSleepClosedForm(|sleeps|);
    if |sleeps| <= DEFAULT_MAX_ATTEMPTS {
      TotalSleepMonotone(|sleeps|, DEFAULT_MAX_ATTEMPTS);
      TotalSleepClosedForm(DEFAULT_MAX_ATTEMPTS);
    }
  }
}
