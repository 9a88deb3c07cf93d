/** Entities on one shared connection over one physical client and a broker session: the reconnect
    machine, the multiplexer and the setup replay composed into one transition system. */
module System {
  import opened Mqtt
  import opened Errors
  import opened TopicList
  import M = Multiplexer
  import R = Reconnect
  import RecvQueue

  type ClientId = M.ClientId
  type CallId = R.CallId

  /** The one receive call on the physical client: the pump's. */
  const PUMP: R.RecvId := 0

  /** What an entity's setup does between discovery and its end. */
  datatype Plan = Plan(topics: seq<TopicSubopts>, announces: bool)

  datatype Stage = Discovering | Subscribing | Announcing

  /** A running setup, identified by its client call; `grant` is the connection on which the broker
      granted its subscribe. */
  datatype Task = Task(owner: ClientId, replay: bool, stage: Stage, grant: Option<nat>)

  /** An entity's receive loop. */
  datatype Loop = NotStarted | Calling | Waiting | Replaying(task: CallId) | Ended

  /** `epoch` numbers the successful connects; `session` holds the filters the broker has for the
      current one. `closed` entities were closed by the application and take no further step. */
  datatype System = System(
    client: R.Client,
    mux: M.Mux,
    linkUp: bool,
    epoch: nat,
    session: set<string>,
    plans: map<ClientId, Plan>,
    loops: map<ClientId, Loop>,
    tasks: map<CallId, Task>,
    closed: set<ClientId>)

  function Initial(maxAttempts: nat): System {
    System(R.Initial(maxAttempts), M.INITIAL, false, 0, {}, map[], map[], map[], {})
  }

  datatype Event =
    | Connect(ec: RawError)
    | Close
    | LinkDrop
    | BrokerForgets(kept: set<string>)
    | AddEntity(c: ClientId, plan: Plan)
    | BeginSetup(c: ClientId, k: CallId)
    | BeginLoop(c: ClientId)
    | LoopRecv(c: ClientId, k: CallId)
    | LoopWake(c: ClientId, k: CallId)
    | TaskWake(k: CallId)
    | BrokerGrants(k: CallId)
    | TaskDone(k: CallId, ec: RawError)
    | OtherCall(call: R.Event)
    | PumpBegin
    | PumpStep(recv: R.Event)
    | Detach(c: ClientId)
    | Expire(c: ClientId)

  predicate Active(s: System, c: ClientId) {
    M.Live(s.mux, c) && c !in s.closed && c in s.plans && c in s.loops
  }

  predicate FreshCall(s: System, k: CallId) {
    k !in s.client.calls && k !in s.tasks
  }

  predicate ActiveTask(s: System, k: CallId) {
    k in s.tasks && Active(s, s.tasks[k].owner)
  }

  /** Steps of the pump's receive call after it began. */
  predicate PumpEvent(e: R.Event) {
    match e
    case PacketArrived(r, _) => r == PUMP
    case NoPacket(r) => r == PUMP
    case TransportBroken(r) => r == PUMP
    case SleepOver(r) => r == PUMP
    case HandshakeDone(r, _) => r == PUMP
    case StartDone(r, _) => r == PUMP
    case _ => false
  }

  /** Publishes and other calls that belong to no setup. */
  predicate ForeignCall(s: System, e: R.Event) {
    (e.CallStart? || e.CallResume? || e.CallDone?) && e.k !in s.tasks
  }

  /** The application connects explicitly once. A subscribe succeeds only if the broker granted it on
      the current connection. The link is down while a connect is attempted. */
  predicate Enabled(s: System, e: Event) {
    match e
    case Connect(ec) => s.epoch == 0 && R.Enabled(s.client, R.ConnectDone(ec))
    case Close => true
    case LinkDrop => s.linkUp
    case BrokerForgets(_) => !s.linkUp
    case AddEntity(c, _) => c !in s.mux.states
    case BeginSetup(c, k) => Active(s, c) && FreshCall(s, k)
    case BeginLoop(c) => Active(s, c) && s.loops[c] == NotStarted
    case LoopRecv(c, k) => Active(s, c) && s.loops[c] == Calling && FreshCall(s, k)
    case LoopWake(c, k) =>
      Active(s, c) && s.loops[c] == Waiting && M.Enabled(s.mux, M.RecvResume(c)) && FreshCall(s, k)
    case TaskWake(k) => ActiveTask(s, k) && R.Enabled(s.client, R.CallResume(k))
    case BrokerGrants(k) =>
      && s.linkUp && ActiveTask(s, k) && s.tasks[k].stage == Subscribing && s.tasks[k].grant == None
      && k in s.client.calls && s.client.calls[k].InTransport?
    case TaskDone(k, ec) =>
      && ActiveTask(s, k) && R.Enabled(s.client, R.CallDone(k, ec))
      && (s.tasks[k].stage == Subscribing && ec == NoError ==> s.tasks[k].grant == Some(s.epoch))
    case OtherCall(call) => ForeignCall(s, call) && R.Enabled(s.client, call)
    case PumpBegin => s.mux.pump == M.Pruning && R.Enabled(s.client, R.RecvStart(PUMP))
    case PumpStep(recv) => s.mux.pump == M.Receiving && PumpEvent(recv) && R.Enabled(s.client, recv)
    case Detach(c) => Active(s, c)
    case Expire(c) =>
      && M.Enabled(s.mux, M.Expire(c)) && c in s.loops && s.loops[c] in {NotStarted, Ended}
      && forall k :: k in s.tasks ==> s.tasks[k].owner != c
  }

  // ---------- Setup tasks ----------

  /** A setup call failed: a replay ends the receive loop with that error. */
  function FailTask(s: System, k: CallId): System
    requires k in s.tasks
  {
    var t := s.tasks[k];
    s.(tasks := s.tasks - {k}, loops := if t.replay then s.loops[t.owner := Ended] else s.loops)
  }

  /** The setup is complete: a replay goes back to receiving. */
  function FinishTask(s: System, k: CallId): System
    requires k in s.tasks
  {
    var t := s.tasks[k];
    s.(tasks := s.tasks - {k}, loops := if t.replay then s.loops[t.owner := Calling] else s.loops)
  }

  /** Issue the call of the task's stage; a client that is not connected refuses it at once. */
  function IssueCall(s: System, k: CallId): System
    requires k in s.tasks && R.Enabled(s.client, R.CallStart(k))
  {
    var s' := s.(client := R.Step(s.client, R.CallStart(k)));
    if s'.client.calls[k].Finished? then FailTask(s', k) else s'
  }

  function Enter(s: System, k: CallId, stage: Stage): System
    requires k in s.tasks && R.Enabled(s.client, R.CallStart(k))
  {
    IssueCall(s.(tasks := s.tasks[k := s.tasks[k].(stage := stage)]), k)
  }

  /** The last part of a setup: announce availability if it is configured. */
  function Announce(s: System, k: CallId): System
    requires k in s.tasks && s.tasks[k].owner in s.plans && R.Enabled(s.client, R.CallStart(k))
  {
    if s.plans[s.tasks[k].owner].announces then Enter(s, k, Announcing) else FinishTask(s, k)
  }

  /** The call of the task's stage succeeded; on to the next stage. */
  function Proceed(s: System, k: CallId): System
    requires ActiveTask(s, k) && R.Enabled(s.client, R.CallStart(k))
  {
    var t := s.tasks[k];
    var topics := s.plans[t.owner].topics;
    match t.stage
    case Discovering => if topics == [] then Announce(s, k) else Enter(s, k, Subscribing)
    case Subscribing => Announce(s.(mux := M.Step(s.mux, M.SubscribeOk(t.owner, topics))), k)
    case Announcing => FinishTask(s, k)
  }

  function NewTask(s: System, c: ClientId, k: CallId, replay: bool): System
    requires FreshCall(s, k)
  {
    IssueCall(s.(tasks := s.tasks[k := Task(c, replay, Discovering, None)]), k)
  }

  /** The receive loop got a result: a session reset starts a replay, a terminal error ends it. */
  function Got(s: System, c: ClientId, r: RecvResult, k: CallId): System
    requires FreshCall(s, k)
  {
    if Terminal(r) then s.(loops := s.loops[c := Ended])
    else if r == Failed(SessionReset) then NewTask(s.(loops := s.loops[c := Replaying(k)]), c, k, true)
    else s.(loops := s.loops[c := Calling])
  }

  /** A receive on the shared connection: the head of the queue at once, or a wait. */
  function Receive(s: System, c: ClientId, k: CallId): System
    requires M.Live(s.mux, c) && FreshCall(s, k)
  {
    var q := s.mux.states[c].q.queue;
    var s' := s.(mux := M.Step(s.mux, M.RecvEnter(c)));
    if q == [] then s'.(loops := s.loops[c := Waiting]) else Got(s', c, q[0], k)
  }

  function EndCall(s: System, k: CallId, ec: RawError): System
    requires ActiveTask(s, k) && R.Enabled(s.client, R.CallDone(k, ec))
  {
    var s' := s.(client := R.Step(s.client, R.CallDone(k, ec)));
    if ec == NoError then Proceed(s', k) else FailTask(s', k)
  }

  // ---------- The pump ----------

  /** If the pump's receive returned in this step, dispatch what it returned in the same step. */
  function Forward(s: System): System
    requires s.mux.pump == M.Receiving && PUMP in s.client.recvs
  {
    var f := s.client.recvs[PUMP];
    if f.Returned? then s.(mux := M.Step(s.mux, M.Result(f.result))) else s
  }

  /** `client` is the physical client after the step. A broken receive means the link is gone; a
      finished start opens a new broker session. */
  function AfterPump(s: System, recv: R.Event, client: R.Client): System
    requires s.mux.pump == M.Receiving && PUMP in client.recvs
  {
    if recv == R.StartDone(PUMP, NoError) then
      Forward(s.(client := client, linkUp := true, epoch := s.epoch + 1, session := {}))
    else
      Forward(s.(client := client, linkUp := s.linkUp && !recv.TransportBroken?))
  }

  function Step(s: System, e: Event): System
    requires Enabled(s, e)
  {
    match e
    case Connect(ec) =>
      var s' := s.(client := R.Step(s.client, R.ConnectDone(ec)));
      if ec == NoError then s'.(linkUp := true, epoch := s.epoch + 1, session := {}) else s'
    case Close => s.(client := R.Step(s.client, R.CloseDone), linkUp := false)
    case LinkDrop => s.(linkUp := false)
    case BrokerForgets(kept) => s.(session := s.session * kept)
    case AddEntity(c, plan) =>
      s.(mux := M.Step(s.mux, M.MakeClient(c)), plans := s.plans[c := plan], loops := s.loops[c := NotStarted])
    case BeginSetup(c, k) => NewTask(s, c, k, false)
    case BeginLoop(c) => s.(loops := s.loops[c := Calling])
    case LoopRecv(c, k) => Receive(s, c, k)
    case LoopWake(c, k) =>
      Got(s.(mux := M.Step(s.mux, M.RecvResume(c))), c, RecvQueue.Resumed(s.mux.states[c].q), k)
    case TaskWake(k) =>
      var s' := s.(client := R.Step(s.client, R.CallResume(k)));
      if s'.client.calls[k].Finished? then FailTask(s', k) else s'
    case BrokerGrants(k) =>
      var t := s.tasks[k];
      s.(session := s.session + NameSet(s.plans[t.owner].topics), tasks := s.tasks[k := t.(grant := Some(s.epoch))])
    case TaskDone(k, ec) => EndCall(s, k, ec)
    case OtherCall(call) => s.(client := R.Step(s.client, call))
    case PumpBegin =>
      s.(mux := M.Step(s.mux, M.Prune), client := R.Step(s.client, R.RecvStart(PUMP)))
    case PumpStep(recv) => AfterPump(s, recv, R.Step(s.client, recv))
    case Detach(c) => s.(mux := M.Step(s.mux, M.Detach(c)), closed := s.closed + {c})
    case Expire(c) => s.(mux := M.Step(s.mux, M.Expire(c)))
  }

  function NameSet(ts: seq<TopicSubopts>): set<string> {
    set t | t in ts :: t.topic
  }

  ghost predicate ValidRun(s: System, es: seq<Event>)
    decreases |es|, 0
  {
    es == [] || (ValidRun(s, es[..|es| - 1]) && Enabled(Run(s, es[..|es| - 1]), es[|es| - 1]))
  }

  ghost function Run(s: System, es: seq<Event>): System
    requires ValidRun(s, es)
    decreases |es|, 1
  {
    if es == [] then s else Step(Run(s, es[..|es| - 1]), es[|es| - 1])
  }

  ghost predicate Reachable(s: System, maxAttempts: nat) {
    exists es :: ValidRun(Initial(maxAttempts), es) && s == Run(Initial(maxAttempts), es)
  }
}
