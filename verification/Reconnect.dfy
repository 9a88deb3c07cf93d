/** The physical client's connection state machine. Each event is one atomic step between two
    suspension points; any number of receive, publish and subscribe calls interleave. */
module Reconnect {
  import opened Mqtt
  import opened Errors

  type RecvId = nat
  type CallId = nat

  datatype Conn = Closed | Connected | Reconnecting

  const DEFAULT_MAX_ATTEMPTS := 10
  const MAX_DELAY := 30

  /** Locals of the reconnect loop; `slept` adds up the completed backoff sleeps, in seconds. */
  datatype Locals = Locals(delay: nat, err: ErrorCode, slept: nat)

  /** Where a receive call is suspended. The last three live inside the reconnect loop. */
  datatype Frame =
    | Waiting
    | Sleeping(l: Locals)
    | Handshaking(l: Locals)
    | Starting(l: Locals)
    | Returned(result: RecvResult, slept: nat)

  /** Where a publish or subscribe call is suspended. Parked calls wait on the reconnect timer. */
  datatype Call = Parked | Woken | InTransport | Finished(err: ErrorCode)

  datatype Client = Client(
    conn: Conn,
    attempt: nat,
    maxAttempts: nat,
    recvs: map<RecvId, Frame>,
    calls: map<CallId, Call>)

  function Initial(maxAttempts: nat): Client {
    Client(Closed, 0, maxAttempts, map[], map[])
  }

  datatype Event =
    | RecvStart(r: RecvId)
    | PacketArrived(r: RecvId, packet: Packet)
    | NoPacket(r: RecvId)
    | TransportBroken(r: RecvId)
    | SleepOver(r: RecvId)
    | HandshakeDone(r: RecvId, ec: RawError)
    | StartDone(r: RecvId, ec: RawError)
    | CallStart(k: CallId)
    | CallResume(k: CallId)
    | CallDone(k: CallId, ec: RawError)
    | CloseDone
    | ConnectDone(ec: RawError)

  predicate InLoop(s: Client, r: RecvId) {
    r in s.recvs && (s.recvs[r].Sleeping? || s.recvs[r].Handshaking? || s.recvs[r].Starting?)
  }

  /** An explicit connect completes only while closed with no reconnect loop active; everything
      else may happen whenever the call in question is suspended there. */
  predicate Enabled(s: Client, e: Event) {
    match e
    case RecvStart(r) => r in s.recvs ==> s.recvs[r].Returned?
    case PacketArrived(r, _) => r in s.recvs && s.recvs[r].Waiting?
    case NoPacket(r) => r in s.recvs && s.recvs[r].Waiting?
    case TransportBroken(r) => r in s.recvs && s.recvs[r].Waiting?
    case SleepOver(r) => r in s.recvs && s.recvs[r].Sleeping?
    case HandshakeDone(r, _) => r in s.recvs && s.recvs[r].Handshaking?
    case StartDone(r, _) => r in s.recvs && s.recvs[r].Starting?
    case CallStart(k) => k in s.calls ==> s.calls[k].Finished?
    case CallResume(k) => k in s.calls && s.calls[k].Woken?
    case CallDone(k, _) => k in s.calls && s.calls[k].InTransport?
    case CloseDone => true
    case ConnectDone(_) => s.conn == Closed && forall r :: r in s.recvs ==> !InLoop(s, r)
  }

  // ---------- The operations ----------

  /** Cancelling the reconnect timer wakes every call parked on it. */
  function WakeAll(calls: map<CallId, Call>): map<CallId, Call> {
    map k | k in calls :: if calls[k].Parked? then Woken else calls[k]
  }

  function Min(a: nat, b: nat): nat {
    if a <= b then a else b
  }

  /** The loop test `attempt++ < max_attempts`, and what follows it on either side. */
  function LoopTest(s: Client, r: RecvId, l: Locals): Client {
    if s.attempt < s.maxAttempts then
      s.(attempt := s.attempt + 1, recvs := s.recvs[r := Sleeping(l)])
    else
      s.(attempt := s.attempt + 1,
         conn := Closed,
         calls := WakeAll(s.calls),
         recvs := s.recvs[r := Returned(Failed(l.err), l.slept)])
  }

  /** A receive failed in the transport. Re-arming the timer cancels any wait still on it. */
  function HandleReconnect(s: Client, r: RecvId): Client {
    match s.conn
    case Closed => s.(recvs := s.recvs[r := Returned(Failed(Disconnected), 0)])
    case Reconnecting => s.(recvs := s.recvs[r := Returned(Failed(InternalError), 0)])
    case Connected =>
      LoopTest(s.(conn := Reconnecting, calls := WakeAll(s.calls)), r, Locals(1, Success, 0))
  }

  function ConnectFailed(s: Client, r: RecvId, l: Locals, ec: RawError): Client {
    LoopTest(s, r, l.(err := MapErr(ec)))
  }

  function ConnectSucceeded(s: Client, r: RecvId, l: Locals): Client {
    s.(conn := Connected,
       attempt := 0,
       calls := WakeAll(s.calls),
       recvs := s.recvs[r := Returned(Failed(SessionReset), l.slept)])
  }

  /** The check after the optional wait. */
  function Gate(s: Client): Call {
    if s.conn == Connected then InTransport else Finished(NotConnected)
  }

  function Step(s: Client, e: Event): Client
    requires Enabled(s, e)
  {
    match e
    case RecvStart(r) => s.(recvs := s.recvs[r := Waiting])
    case PacketArrived(r, packet) => s.(recvs := s.recvs[r := Returned(Received(packet), 0)])
    case NoPacket(r) => s.(recvs := s.recvs[r := Returned(Failed(InvalidPacket), 0)])
    case TransportBroken(r) => HandleReconnect(s, r)
    case SleepOver(r) =>
      var l := s.recvs[r].l;
      s.(recvs := s.recvs[r := Handshaking(Locals(Min(l.delay * 2, MAX_DELAY), l.err, l.slept + l.delay))])
    case HandshakeDone(r, ec) =>
      var l := s.recvs[r].l;
      if ec == NoError then s.(recvs := s.recvs[r := Starting(l)]) else ConnectFailed(s, r, l, ec)
    case StartDone(r, ec) =>
      var l := s.recvs[r].l;
      if ec == NoError then ConnectSucceeded(s, r, l) else ConnectFailed(s, r, l, ec)
    case CallStart(k) =>
      s.(calls := s.calls[k := if s.conn == Reconnecting then Parked else Gate(s)])
    case CallResume(k) => s.(calls := s.calls[k := Gate(s)])
    case CallDone(k, ec) => s.(calls := s.calls[k := Finished(MapErr(ec))])
    case CloseDone => s.(conn := Closed, calls := WakeAll(s.calls))
    case ConnectDone(ec) => if ec == NoError then s.(conn := Connected, attempt := 0) else s
  }

  ghost predicate ValidRun(s: Client, es: seq<Event>)
    decreases |es|, 0
  {
    es == [] || (ValidRun(s, es[..|es| - 1]) && Enabled(Run(s, es[..|es| - 1]), es[|es| - 1]))
  }

  ghost function Run(s: Client, es: seq<Event>): Client
    requires ValidRun(s, es)
    decreases |es|, 1
  {
    if es == [] then s else Step(Run(s, es[..|es| - 1]), es[|es| - 1])
  }

  lemma ExtendRun(s: Client, es: seq<Event>, e: Event)
    requires ValidRun(s, es) && Enabled(Run(s, es), e)
    ensures ValidRun(s, es + [e]) && Run(s, es + [e]) == Step(Run(s, es), e)
  {
    assert (es + [e])[..|es + [e]| - 1] == es;
  }

  ghost predicate Reachable(s: Client, maxAttempts: nat) {
    exists es :: ValidRun(Initial(maxAttempts), es) && s == Run(Initial(maxAttempts), es)
  }

  // ---------- Backoff arithmetic ----------

  function Pow2(n: nat): nat {
    if n == 0 then 1 else 2 * Pow2(n - 1)
  }

  /** The n-th sleep, counted from one. */
  function Backoff(n: nat): nat
    requires n > 0
  {
    Min(Pow2(n - 1), MAX_DELAY)
  }

  function TotalSleep(n: nat): nat {
    if n == 0 then 0 else TotalSleep(n - 1) + Backoff(n)
  }

  lemma BackoffNext(n: nat)
    requires n > 0
    ensures Min(Backoff(n) * 2, MAX_DELAY) == Backoff(n + 1)
  {
    assert Pow2(n) == 2 * Pow2(n - 1);
  }

  lemma {:induction false} Pow2Large(n: nat)
    requires n >= 5
    ensures Pow2(n) >= 32
  {
    if n == 5 {
      assert Pow2(3) == 8;
    } else {
      Pow2Large(n - 1);
    }
  }

  /** Total backoff after n failed attempts; the default of ten attempts gives at most 181 s. */
  lemma {:induction false} TotalSleepClosedForm(n: nat)
    ensures TotalSleep(n) == if n <= 5 then Pow2(n) - 1 else 31 + 30 * (n - 5)
    ensures n == DEFAULT_MAX_ATTEMPTS ==> TotalSleep(n) == 181
  {
    if n > 0 {
      TotalSleepClosedForm(n - 1);
      if n > 5 {
        Pow2Large(n - 1);
      }
      assert Pow2(3) == 8;
    }
  }

  lemma {:induction false} TotalSleepMonotone(n: nat, n': nat)
    requires n <= n'
    ensures TotalSleep(n) <= TotalSleep(n')
    decreases n'
  {
    if n < n' {
      TotalSleepMonotone(n, n' - 1);
    }
  }

  // ---------- The invariant ----------

  /** What a loop frame knows: the delay it is in, what it slept, and that its last error is real
      from the second attempt on. */
  ghost predicate LoopInv(s: Client, f: Frame)
    requires f.Sleeping? || f.Handshaking? || f.Starting?
  {
    && 1 <= s.attempt <= s.maxAttempts
    && f.l.delay == Backoff(if f.Sleeping? then s.attempt else s.attempt + 1)
    && f.l.slept == TotalSleep(if f.Sleeping? then s.attempt - 1 else s.attempt)
    && f.l.err != SessionReset
    && (s.attempt > 1 ==> f.l.err != Success)
  }

  ghost predicate Inv(s: Client) {
    && (forall r, r' :: InLoop(s, r) && InLoop(s, r') ==> r == r')
    && (s.conn == Connected ==> s.attempt == 0 && forall r :: !InLoop(s, r))
    && (s.conn == Reconnecting ==> exists r :: InLoop(s, r))
    && (forall k :: k in s.calls && s.calls[k].Parked? ==> s.conn == Reconnecting)
    && (forall r :: InLoop(s, r) ==> LoopInv(s, s.recvs[r]))
    && s.attempt <= s.maxAttempts + 1
  }

  lemma LoopTestKeepsInv(s: Client, r: RecvId, l: Locals)
    requires forall r' :: InLoop(s, r') ==> r' == r
    requires s.conn != Connected
    requires forall k :: k in s.calls && s.calls[k].Parked? ==> s.conn == Reconnecting
    requires s.attempt <= s.maxAttempts
    requires l.delay == Backoff(s.attempt + 1) && l.slept == TotalSleep(s.attempt)
    requires l.err != SessionReset && (s.attempt > 0 ==> l.err != Success)
    ensures Inv(LoopTest(s, r, l))
  {
    var s' := LoopTest(s, r, l);
    forall r' | InLoop(s', r')
      ensures r' == r && s.attempt < s.maxAttempts
    {
      assert r' != r ==> InLoop(s, r');
    }
    if s.attempt < s.maxAttempts {
      assert InLoop(s', r);
    }
  }

  lemma SleepOverKeepsInv(s: Client, r: RecvId)
    requires Inv(s) && Enabled(s, SleepOver(r))
    ensures Inv(Step(s, SleepOver(r)))
  {
    var s' := Step(s, SleepOver(r));
    assert InLoop(s, r) && InLoop(s', r);
    BackoffNext(s.attempt);
    assert TotalSleep(s.attempt) == TotalSleep(s.attempt - 1) + Backoff(s.attempt);
    assert forall r' :: InLoop(s', r') ==> InLoop(s, r');
  }

  lemma BrokenKeepsInv(s: Client, r: RecvId)
    requires Inv(s) && Enabled(s, TransportBroken(r))
    ensures Inv(Step(s, TransportBroken(r)))
  {
    if s.conn == Connected {
      assert TotalSleep(0) == 0 && Backoff(1) == 1;
      LoopTestKeepsInv(s.(conn := Reconnecting, calls := WakeAll(s.calls)), r, Locals(1, Success, 0));
    } else {
      assert forall r' :: InLoop(Step(s, TransportBroken(r)), r') <==> InLoop(s, r');
    }
  }

  lemma ConnectDoneInLoopKeepsInv(s: Client, e: Event)
    requires Inv(s) && Enabled(s, e) && (e.HandshakeDone? || e.StartDone?)
    ensures Inv(Step(s, e))
  {
    var s', r := Step(s, e), e.r;
    assert InLoop(s, r);
    if e.ec != NoError {
      LoopTestKeepsInv(s, r, s.recvs[r].l.(err := MapErr(e.ec)));
    } else if e.HandshakeDone? {
      assert InLoop(s', r);
      assert forall r' :: InLoop(s', r') <==> InLoop(s, r');
    } else {
      assert forall r' :: InLoop(s', r') ==> InLoop(s, r') && r' != r;
    }
  }

  /** Steps that leave every loop frame alone. */
  lemma OutsideStepKeepsInv(s: Client, e: Event)
    requires Inv(s) && Enabled(s, e)
    requires !e.TransportBroken? && !e.SleepOver? && !e.HandshakeDone? && !e.StartDone?
    ensures Inv(Step(s, e))
  {
    var s' := Step(s, e);
    forall r
      ensures InLoop(s', r) <==> InLoop(s, r)
      ensures InLoop(s, r) ==> s'.recvs[r] == s.recvs[r]
    {
    }
  }

  lemma StepKeepsInv(s: Client, e: Event)
    requires Inv(s) && Enabled(s, e)
    ensures Inv(Step(s, e))
  {
    match e
    case TransportBroken(r) => BrokenKeepsInv(s, r);
    case SleepOver(r) => SleepOverKeepsInv(s, r);
    case HandshakeDone(_, _) => ConnectDoneInLoopKeepsInv(s, e);
    case StartDone(_, _) => ConnectDoneInLoopKeepsInv(s, e);
    case _ => OutsideStepKeepsInv(s, e);
  }

  lemma {:induction false} RunKeepsInv(s: Client, es: seq<Event>)
    requires Inv(s) && ValidRun(s, es)
    ensures Inv(Run(s, es)) && Run(s, es).maxAttempts == s.maxAttempts
  {
    if es != [] {
      RunKeepsInv(s, es[..|es| - 1]);
      StepKeepsInv(Run(s, es[..|es| - 1]), es[|es| - 1]);
    }
  }

  /** The connection state, the loop, the attempt counter and the parked callers agree in every
      reachable state, whatever closes happen in between. */
  lemma ReconnectInvariant(s: Client, m: nat)
    requires Reachable(s, m)
    ensures Inv(s) && s.maxAttempts == m
    ensures forall r, r' :: InLoop(s, r) && InLoop(s, r') ==> r == r'
    ensures s.conn == Connected ==> s.attempt == 0 && forall r :: !InLoop(s, r)
    ensures s.conn == Reconnecting <==> (exists r :: InLoop(s, r)) && s.conn != Closed
    ensures (exists k :: k in s.calls && s.calls[k].Parked?) ==> s.conn == Reconnecting
  {
    var es :| ValidRun(Initial(m), es) && s == Run(Initial(m), es);
    RunKeepsInv(Initial(m), es);
  }

  /** No publish or subscribe caller stays parked in a state where nothing would wake it. */
  lemma NoStrandedCaller(s: Client, m: nat, k: CallId)
    requires Reachable(s, m)
    requires k in s.calls && s.calls[k].Parked?
    ensures exists r :: InLoop(s, r) && s.attempt <= m
    ensures k in Step(s, CloseDone).calls && Step(s, CloseDone).calls[k].Woken?
  {
    ReconnectInvariant(s, m);
    var r :| InLoop(s, r);
    assert LoopInv(s, s.recvs[r]);
  }

  // ---------- Receive errors ----------

  /** What one step makes a receive call return. */
  ghost predicate Returns(s: Client, e: Event, r: RecvId, result: RecvResult)
    requires Enabled(s, e)
  {
    var s' := Step(s, e);
    && r in s.recvs && !s.recvs[r].Returned?
    && r in s'.recvs && s'.recvs[r].Returned? && s'.recvs[r].result == result
  }

  /** A receive reports a session reset exactly when its own reconnect loop has just connected, and
      then the client is connected with its counter cleared. Any other way out of the loop is the
      exhaustion of all attempts, with a real error, the state closed and the full backoff slept. */
  lemma ReceiveErrorsAreTruthful(s: Client, m: nat, e: Event, r: RecvId, c: ErrorCode)
    requires Reachable(s, m) && Enabled(s, e)
    requires Returns(s, e, r, Failed(c))
    ensures c == SessionReset <==> e == StartDone(r, NoError)
    ensures c == SessionReset ==> InLoop(s, r) && Step(s, e).conn == Connected && Step(s, e).attempt == 0
    ensures c == Success ==> m == 0
    ensures InLoop(s, r) && c != SessionReset ==>
      && Step(s, e).conn == Closed
      && s.attempt == m
      && Step(s, e).recvs[r].slept == TotalSleep(m)
    ensures !InLoop(s, r) ==> c in {Disconnected, InternalError, InvalidPacket} || m == 0
  {
    ReconnectInvariant(s, m);
    if InLoop(s, r) {
      assert LoopInv(s, s.recvs[r]);
    }
  }

  /** With one attempt allowed or more, and the code allows ten, no receive ever reports success as its
      error; with none, the loop would be left before any attempt and it would. */
  lemma ReportsSuccessIffNoAttempts(m: nat)
    ensures (exists s, e, r :: Reachable(s, m) && Enabled(s, e) && Returns(s, e, r, Failed(Success))) <==> m == 0
  {
    if s, e, r :| Reachable(s, m) && Enabled(s, e) && Returns(s, e, r, Failed(Success)) {
      ReceiveErrorsAreTruthful(s, m, e, r, Success);
    }
    if m == 0 {
      var es := [ConnectDone(NoError), RecvStart(0)];
      ExtendRun(Initial(m), [], es[0]);
      assert [] + [es[0]] == [es[0]];
      ExtendRun(Initial(m), [es[0]], es[1]);
      assert [es[0]] + [es[1]] == es;
      var s := Run(Initial(m), es);
      assert Reachable(s, m);
      assert Returns(s, TransportBroken(0), 0, Failed(Success));
    }
  }

  // ---------- Termination of the loop, under interference ----------

  predicate LoopStep(e: Event, r: RecvId) {
    (e.SleepOver? || e.HandshakeDone? || e.StartDone?) && e.r == r
  }

  ghost function LoopSteps(es: seq<Event>, r: RecvId): nat {
    if es == [] then 0 else LoopSteps(es[..|es| - 1], r) + (if LoopStep(es[|es| - 1], r) then 1 else 0)
  }

  /** Connection attempts begun by the loop of `r`: one handshake outcome each. */
  ghost function Connects(es: seq<Event>, r: RecvId): nat {
    if es == [] then 0
    else
      var last := es[|es| - 1];
      Connects(es[..|es| - 1], r) + (if last.HandshakeDone? && last.r == r then 1 else 0)
  }

  ghost function StepsLeft(s: Client, r: RecvId): int {
    if !InLoop(s, r) then 0
    else 3 * (s.maxAttempts - s.attempt) + (if s.recvs[r].Sleeping? then 3 else if s.recvs[r].Handshaking? then 2 else 1)
  }

  ghost function ConnectsLeft(s: Client, r: RecvId): int {
    if !InLoop(s, r) then 0
    else s.maxAttempts - s.attempt + (if s.recvs[r].Starting? then 0 else 1)
  }

  lemma OtherStepsKeepLoop(s: Client, e: Event, r: RecvId)
    requires Inv(s) && Enabled(s, e) && InLoop(s, r) && !LoopStep(e, r)
    ensures var s' := Step(s, e); InLoop(s', r) && s'.recvs[r] == s.recvs[r] && s'.attempt == s.attempt
  {
    if e.SleepOver? || e.HandshakeDone? || e.StartDone? {
      assert InLoop(s, e.r);
    }
  }

  lemma LoopStepDecreases(s: Client, e: Event, r: RecvId)
    requires Inv(s) && Enabled(s, e) && InLoop(s, r)
    ensures StepsLeft(Step(s, e), r) + (if LoopStep(e, r) then 1 else 0) <= StepsLeft(s, r)
    ensures ConnectsLeft(Step(s, e), r) + (if e.HandshakeDone? && e.r == r then 1 else 0) <= ConnectsLeft(s, r)
    ensures r in Step(s, e).recvs && (InLoop(Step(s, e), r) || Step(s, e).recvs[r].Returned?)
    ensures Step(s, e).maxAttempts == s.maxAttempts
  {
    assert LoopInv(s, s.recvs[r]);
    if !LoopStep(e, r) {
      OtherStepsKeepLoop(s, e, r);
    }
  }

  /** Once its loop is entered, a receive call gets through it in finitely many of its own steps,
      whatever the other calls and closes do meanwhile: every own step uses up the measure. */
  lemma {:induction false} LoopTerminates(s: Client, es: seq<Event>, r: RecvId)
    requires Inv(s) && ValidRun(s, es) && InLoop(s, r)
    requires forall i :: 0 <= i < |es| ==> es[i] != RecvStart(r)
    ensures LoopSteps(es, r) + StepsLeft(Run(s, es), r) <= StepsLeft(s, r)
    ensures Connects(es, r) + ConnectsLeft(Run(s, es), r) <= ConnectsLeft(s, r)
    ensures r in Run(s, es).recvs && (InLoop(Run(s, es), r) || Run(s, es).recvs[r].Returned?)
  {
    if es != [] {
      var init, last := es[..|es| - 1], es[|es| - 1];
      LoopTerminates(s, init, r);
      RunKeepsInv(s, init);
      if InLoop(Run(s, init), r) {
        LoopStepDecreases(Run(s, init), last, r);
      } else {
        ReturnedStep(Run(s, init), last, r);
      }
    }
  }

  lemma ReturnedStep(s: Client, e: Event, r: RecvId)
    requires Enabled(s, e) && r in s.recvs && s.recvs[r].Returned? && e != RecvStart(r)
    ensures r in Step(s, e).recvs && Step(s, e).recvs[r] == s.recvs[r]
    ensures !LoopStep(e, r)
  {
  }

  lemma SleptAtMostTotal(s: Client, r: RecvId)
    requires Inv(s) && InLoop(s, r)
    ensures s.recvs[r].l.slept <= TotalSleep(s.maxAttempts)
    ensures StepsLeft(s, r) >= 0 && ConnectsLeft(s, r) >= 0
  {
    assert LoopInv(s, s.recvs[r]);
    TotalSleepMonotone(if s.recvs[r].Sleeping? then s.attempt - 1 else s.attempt, s.maxAttempts);
  }

  /** What a receive call has slept in its loop, before or after it returned. */
  function Slept(f: Frame): nat {
    match f
    case Waiting => 0
    case Returned(_, slept) => slept
    case _ => f.l.slept
  }

  /** A loop returns with what it had slept before its last step. */
  lemma LoopStepSlept(s: Client, e: Event, r: RecvId)
    requires Inv(s) && Enabled(s, e) && InLoop(s, r)
    ensures r in Step(s, e).recvs && Slept(Step(s, e).recvs[r]) <= TotalSleep(s.maxAttempts)
  {
    LoopStepDecreases(s, e, r);
    SleptAtMostTotal(s, r);
    if InLoop(Step(s, e), r) {
      StepKeepsInv(s, e);
      SleptAtMostTotal(Step(s, e), r);
    }
  }

  lemma {:induction false} SleepIsBounded(s: Client, es: seq<Event>, r: RecvId)
    requires Inv(s) && ValidRun(s, es) && InLoop(s, r)
    requires forall i :: 0 <= i < |es| ==> es[i] != RecvStart(r)
    ensures r in Run(s, es).recvs && Slept(Run(s, es).recvs[r]) <= TotalSleep(s.maxAttempts)
  {
    if es == [] {
      SleptAtMostTotal(s, r);
    } else {
      var init, last := es[..|es| - 1], es[|es| - 1];
      SleepIsBounded(s, init, r);
      LoopTerminates(s, init, r);
      RunKeepsInv(s, init);
      if InLoop(Run(s, init), r) {
        LoopStepSlept(Run(s, init), last, r);
      } else {
        ReturnedStep(Run(s, init), last, r);
      }
    }
  }

  /** From the broken receive that enters the loop: at most `m` connects and `3 * m` loop steps, and
      never more than the closed-form total of sleep, in the loop and when it has returned. */
  lemma ReconnectIsBounded(s: Client, m: nat, es: seq<Event>, r: RecvId)
    requires Reachable(s, m) && Enabled(s, TransportBroken(r)) && s.conn == Connected
    requires ValidRun(Step(s, TransportBroken(r)), es)
    requires forall i :: 0 <= i < |es| ==> es[i] != RecvStart(r)
    ensures Connects(es, r) <= m && LoopSteps(es, r) <= 3 * m
    ensures var s' := Run(Step(s, TransportBroken(r)), es);
            r in s'.recvs && Slept(s'.recvs[r]) <= TotalSleep(m)
  {
    ReconnectInvariant(s, m);
    BrokenKeepsInv(s, r);
    var p := Step(s, TransportBroken(r));
    if InLoop(p, r) {
      LoopTerminates(p, es, r);
      RunKeepsInv(p, es);
      if InLoop(Run(p, es), r) {
        SleptAtMostTotal(Run(p, es), r);
      }
      SleepIsBounded(p, es, r);
    } else {
      ReturnedStays(p, es, r);
    }
  }

  lemma {:induction false} ReturnedStays(s: Client, es: seq<Event>, r: RecvId)
    requires ValidRun(s, es) && r in s.recvs && s.recvs[r].Returned?
    requires forall i :: 0 <= i < |es| ==> es[i] != RecvStart(r)
    ensures r in Run(s, es).recvs && Run(s, es).recvs[r] == s.recvs[r]
    ensures LoopSteps(es, r) == 0 && Connects(es, r) == 0
  {
    if es != [] {
      ReturnedStays(s, es[..|es| - 1], r);
      ReturnedStep(Run(s, es[..|es| - 1]), es[|es| - 1], r);
    }
  }

  // ---------- Gated calls ----------

  ghost function Rank(c: Call): nat {
    match c
    case Parked => 0
    case Woken => 1
    case InTransport => 2
    case Finished(_) => 3
  }

  /** A call reaches the transport only in a step that sees the client connected, and ends without
      reaching it only as "not connected", in a step that sees it not connected. */
  lemma GateIsSound(s: Client, m: nat, e: Event, k: CallId)
    requires Reachable(s, m) && Enabled(s, e)
    requires k in Step(s, e).calls && (k in s.calls ==> s.calls[k] != Step(s, e).calls[k])
    ensures Step(s, e).calls[k].InTransport? ==> s.conn == Connected && e in {CallStart(k), CallResume(k)}
    ensures Step(s, e).calls[k].Finished? && (k in s.calls ==> !s.calls[k].InTransport?) ==>
      s.conn != Connected && Step(s, e).calls[k].err == NotConnected
    ensures Step(s, e).calls[k].Parked? ==> s.conn == Reconnecting && e == CallStart(k)
    ensures Step(s, e).calls[k].Woken? ==> k in s.calls && s.calls[k].Parked? && Step(s, e).conn != Reconnecting
  {
    ReconnectInvariant(s, m);
  }

  /** A publish or subscribe never reports a session reset, so a failed call of a setup is told from a
      reset that asks for one. */
  lemma {:induction false} CallsNeverReportReset(m: nat, es: seq<Event>)
    requires ValidRun(Initial(m), es)
    ensures forall k :: k in Run(Initial(m), es).calls ==>
      Run(Initial(m), es).calls[k] != Finished(SessionReset)
  {
    if es != [] {
      CallsNeverReportReset(m, es[..|es| - 1]);
    }
  }

  /** A call parks at most once: along any run its progress never goes back until it is restarted,
      so after a wake it is never parked again. */
  lemma {:induction false} CallParksAtMostOnce(s: Client, es: seq<Event>, k: CallId)
    requires ValidRun(s, es) && k in s.calls
    requires forall i :: 0 <= i < |es| ==> es[i] != CallStart(k)
    ensures k in Run(s, es).calls && Rank(Run(s, es).calls[k]) >= Rank(s.calls[k])
    ensures s.calls[k].Finished? ==> Run(s, es).calls[k] == s.calls[k]
  {
    if es != [] {
      CallParksAtMostOnce(s, es[..|es| - 1], k);
    }
  }

  // ---------- Closing ----------

  ghost predicate NoExplicitConnect(es: seq<Event>) {
    forall i :: 0 <= i < |es| ==> !es[i].ConnectDone?
  }

  lemma {:induction false} ClosedWithoutLoopStays(s: Client, es: seq<Event>)
    requires s.conn == Closed && (forall r :: !InLoop(s, r))
    requires ValidRun(s, es) && NoExplicitConnect(es)
    ensures Run(s, es).conn == Closed && forall r :: !InLoop(Run(s, es), r)
  {
    if es != [] {
      var init, last := es[..|es| - 1], es[|es| - 1];
      assert forall i :: 0 <= i < |init| ==> init[i] == es[i];
      ClosedWithoutLoopStays(s, init);
      var p := Run(s, init);
      assert !last.ConnectDone?;
      if last.SleepOver? || last.HandshakeDone? || last.StartDone? {
        assert InLoop(p, last.r);
      }
      assert forall r :: InLoop(Step(p, last), r) ==> InLoop(p, r);
    }
  }

  /** The run `es` can be continued, without an explicit connect, until its loop has connected. */
  lemma LoopCanRevive(s: Client, es: seq<Event>, r: RecvId) returns (fs: seq<Event>)
    requires ValidRun(s, es) && NoExplicitConnect(es) && InLoop(Run(s, es), r)
    ensures ValidRun(s, fs) && NoExplicitConnect(fs) && Run(s, fs).conn == Connected
    decreases if Run(s, es).recvs[r].Sleeping? then 2 else if Run(s, es).recvs[r].Handshaking? then 1 else 0
  {
    var f := Run(s, es).recvs[r];
    var e := if f.Sleeping? then SleepOver(r)
             else if f.Handshaking? then HandshakeDone(r, NoError)
             else StartDone(r, NoError);
    ExtendRun(s, es, e);
    fs := es + [e];
    if !f.Starting? {
      fs := LoopCanRevive(s, fs, r);
    }
  }

  /** A close while the loop sleeps leaves the client closed with its loop active. */
  lemma CloseLeavesLoop(m: nat)
    requires m > 0
    ensures exists s :: Reachable(s, m) && s.conn == Closed && InLoop(s, 0)
  {
    var c0 := Initial(m);
    var es := [ConnectDone(NoError), RecvStart(0), TransportBroken(0), CloseDone];
    ExtendRun(c0, [], es[0]);
    assert [] + [es[0]] == es[..1];
    ExtendRun(c0, es[..1], es[1]);
    assert es[..1] + [es[1]] == es[..2];
    ExtendRun(c0, es[..2], es[2]);
    assert es[..2] + [es[2]] == es[..3];
    ExtendRun(c0, es[..3], es[3]);
    assert es[..3] + [es[3]] == es;
    assert Reachable(Run(c0, es), m);
  }

  /** A closed client stays closed exactly when no reconnect loop is active: closing during a
      reconnect does not stop the loop, which may connect again on its own. */
  lemma ClosedStaysClosedIffNoLoop(s: Client, m: nat)
    requires Reachable(s, m) && s.conn == Closed
    ensures (forall es :: ValidRun(s, es) && NoExplicitConnect(es) ==> Run(s, es).conn != Connected)
            <==> forall r :: !InLoop(s, r)
  {
    if r :| InLoop(s, r) {
      var es := LoopCanRevive(s, [], r);
    } else {
      forall es | ValidRun(s, es) && NoExplicitConnect(es)
        ensures Run(s, es).conn != Connected
      {
        ClosedWithoutLoopStays(s, es);
      }
    }
  }
}
