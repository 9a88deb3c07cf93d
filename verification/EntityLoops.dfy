/** The receive loops and setups of the composed system, step by step: what ends a loop, what resumes it,
    and what every step hands over or delivers. */
module EntityLoops {
  import opened Mqtt
  import opened Errors
  import opened TopicList
  import opened System
  import opened Restoration
  import opened SystemTheorems
  import M = Multiplexer
  import R = Reconnect
  import RO = ReconnectOutcomes
  import RecvQueue
  import Entity
  import EntityConfig

  // ---------- The plan of an entity ----------

  function PlanOf(spec: Entity.Spec): Plan
    requires spec.WellConfigured()
  {
    Plan(spec.topics, EntityConfig.Contains(spec.cfg, EntityConfig.AVAILABILITY_TOPIC).value)
  }

  /** The stages a task goes through when all its calls succeed. */
  function Stages(plan: Plan): seq<Stage> {
    [Discovering] + (if plan.topics == [] then [] else [Subscribing]) + (if plan.announces then [Announcing] else [])
  }

  predicate CallOfStage(spec: Entity.Spec, stage: Stage, op: Entity.Op)
    requires spec.WellConfigured()
  {
    match stage
    case Discovering => op == spec.DiscoveryOp()
    case Subscribing => op == Entity.SubscribeOp(spec.topics)
    case Announcing => spec.AvailabilityOps(true) == [op]
  }

  /** The stages of the composed system are the calls of the entity's setup, one for one. */
  lemma StagesAreSetupCalls(spec: Entity.Spec)
    requires spec.WellConfigured()
    ensures |Stages(PlanOf(spec))| == |spec.SetupOps()|
    ensures forall i :: 0 <= i < |spec.SetupOps()| ==> CallOfStage(spec, Stages(PlanOf(spec))[i], spec.SetupOps()[i])
  {
    assert spec.SetupOps() == [spec.DiscoveryOp()] + spec.SubscribeOps() + spec.AvailabilityOps(true);
  }

  /** The stage that follows, if any. */
  function Next(stages: seq<Stage>, stage: Stage): Option<Stage> {
    if |stages| < 2 then None
    else if stages[0] == stage then Some(stages[1])
    else Next(stages[1..], stage)
  }

  lemma NextOf(plan: Plan, stage: Stage)
    requires stage in Stages(plan)
    ensures Next(Stages(plan), stage) ==
      match stage
      case Discovering =>
        if plan.topics != [] then Some(Subscribing) else if plan.announces then Some(Announcing) else None
      case Subscribing => if plan.announces then Some(Announcing) else None
      case Announcing => None
  {
    var stages := Stages(plan);
    if |stages| == 3 {
      assert stages[1..] == [Subscribing, Announcing] && [Subscribing, Announcing][1..] == [Announcing];
    } else if |stages| == 2 {
      assert stages[1..] == [stages[1]];
    }
  }

  // ---------- Every task is at a stage of its plan ----------

  ghost predicate StagesFit(s: System) {
    forall k :: k in s.tasks ==> s.tasks[k].owner in s.plans && s.tasks[k].stage in Stages(s.plans[s.tasks[k].owner])
  }

  /** Tasks are only dropped. */
  ghost predicate FewerTasks(s: System, s': System) {
    s'.plans == s.plans && forall k :: k in s'.tasks ==> k in s.tasks && s'.tasks[k] == s.tasks[k]
  }

  lemma IssueCallDrops(s: System, k: CallId)
    requires k in s.tasks && R.Enabled(s.client, R.CallStart(k))
    ensures FewerTasks(s, IssueCall(s, k))
  {
  }

  lemma EnterFits(s: System, k: CallId, stage: Stage)
    requires StagesFit(s) && k in s.tasks && R.Enabled(s.client, R.CallStart(k))
    requires stage in Stages(s.plans[s.tasks[k].owner])
    ensures StagesFit(Enter(s, k, stage))
  {
    IssueCallDrops(s.(tasks := s.tasks[k := s.tasks[k].(stage := stage)]), k);
  }

  lemma AnnounceFits(s: System, k: CallId)
    requires StagesFit(s) && k in s.tasks && R.Enabled(s.client, R.CallStart(k))
    ensures StagesFit(Announce(s, k))
  {
    if s.plans[s.tasks[k].owner].announces {
      EnterFits(s, k, Announcing);
    }
  }

  lemma ProceedFits(s: System, k: CallId)
    requires StagesFit(s) && ActiveTask(s, k) && R.Enabled(s.client, R.CallStart(k))
    ensures StagesFit(Proceed(s, k))
  {
    var t := s.tasks[k];
    var topics := s.plans[t.owner].topics;
    match t.stage
    case Discovering =>
      if topics == [] {
        AnnounceFits(s, k);
      } else {
        EnterFits(s, k, Subscribing);
      }
    case Subscribing => AnnounceFits(s.(mux := M.Step(s.mux, M.SubscribeOk(t.owner, topics))), k);
    case Announcing =>
  }

  lemma NewTaskFits(s: System, c: ClientId, k: CallId, replay: bool)
    requires StagesFit(s) && c in s.plans && FreshCall(s, k)
    ensures StagesFit(NewTask(s, c, k, replay))
  {
    IssueCallDrops(s.(tasks := s.tasks[k := Task(c, replay, Discovering, None)]), k);
  }

  lemma GotFits(s: System, c: ClientId, r: RecvResult, k: CallId)
    requires StagesFit(s) && c in s.plans && FreshCall(s, k)
    ensures StagesFit(Got(s, c, r, k))
  {
    if r == Failed(SessionReset) {
      NewTaskFits(s.(loops := s.loops[c := Replaying(k)]), c, k, true);
    }
  }

  lemma LoopStepFits(s: System, e: Event)
    requires StagesFit(s) && Enabled(s, e) && (e.LoopRecv? || e.LoopWake?)
    ensures StagesFit(Step(s, e))
  {
    var s' := s.(mux := M.Step(s.mux, if e.LoopRecv? then M.RecvEnter(e.c) else M.RecvResume(e.c)));
    var q := s.mux.states[e.c].q;
    if e.LoopWake? || q.queue != [] {
      GotFits(s', e.c, if e.LoopWake? then RecvQueue.Resumed(q) else q.queue[0], e.k);
    }
  }

  lemma EntityStepFits(s: System, e: Event)
    requires StagesFit(s) && Enabled(s, e) && EntityEvent(e)
    ensures StagesFit(Step(s, e))
  {
    match e
    case BeginSetup(c, k) => NewTaskFits(s, c, k, false);
    case LoopRecv(_, _) => LoopStepFits(s, e);
    case LoopWake(_, _) => LoopStepFits(s, e);
    case TaskDone(k, ec) =>
      if ec == NoError {
        ProceedFits(s.(client := R.Step(s.client, R.CallDone(k, ec))), k);
      }
    case _ =>
  }

  lemma StepFits(s: System, e: Event)
    requires StagesFit(s) && s.plans.Keys == s.mux.states.Keys && Enabled(s, e)
    ensures StagesFit(Step(s, e))
  {
    if EntityEvent(e) {
      EntityStepFits(s, e);
    } else if e.PumpStep? {
      assert Step(s, e).tasks == s.tasks && Step(s, e).plans == s.plans;
    }
  }

  lemma {:induction false} RunFits(m: nat, es: seq<Event>)
    requires ValidRun(Initial(m), es)
    ensures StagesFit(Run(Initial(m), es))
  {
    if es != [] {
      RunFits(m, es[..|es| - 1]);
      RunKeepsInv(m, es[..|es| - 1]);
      StepFits(Run(Initial(m), es[..|es| - 1]), es[|es| - 1]);
    }
  }

  lemma ReachableFits(s: System, m: nat)
    requires Reachable(s, m)
    ensures StagesFit(s)
  {
    var es :| ValidRun(Initial(m), es) && s == Run(Initial(m), es);
    RunFits(m, es);
  }

  // ---------- A setup, call by call ----------

  /** The call of the task's stage is under way: in the transport, or parked during a reconnect. */
  predicate CallIssued(s: System, k: CallId) {
    k in s.client.calls && s.client.calls[k] == if s.client.conn == R.Reconnecting then R.Parked else R.InTransport
  }

  /** The loops after a task ended: a replay's entity goes on, a plain setup leaves every loop alone. */
  function LoopsAfter(s: System, t: Task, loop: Loop): map<ClientId, Loop> {
    if t.replay then s.loops[t.owner := loop] else s.loops
  }

  /** `s'` is `s` with the task `k` at this stage, its call issued unless the client is closed. */
  ghost predicate Issues(s: System, k: CallId, t: Task, s': System) {
    && s'.mux == s.mux && s'.plans == s.plans && s'.linkUp == s.linkUp && s'.client.conn == s.client.conn
    && s'.epoch == s.epoch && s'.session == s.session && s'.closed == s.closed
    && if s.client.conn == R.Closed
       then s'.tasks == s.tasks - {k} && s'.loops == LoopsAfter(s, t, Ended)
       else s'.tasks == s.tasks[k := t] && s'.loops == s.loops && CallIssued(s', k)
  }

  lemma IssueCallIssues(s: System, k: CallId)
    requires k in s.tasks && R.Enabled(s.client, R.CallStart(k))
    ensures Issues(s, k, s.tasks[k], IssueCall(s, k))
  {
    assert s.tasks[k := s.tasks[k]] == s.tasks;
  }

  lemma EnterIssues(s: System, k: CallId, stage: Stage)
    requires k in s.tasks && R.Enabled(s.client, R.CallStart(k))
    ensures Issues(s, k, s.tasks[k].(stage := stage), Enter(s, k, stage))
  {
    var p := s.(tasks := s.tasks[k := s.tasks[k].(stage := stage)]);
    IssueCallIssues(p, k);
    assert p.tasks - {k} == s.tasks - {k};
    assert p.tasks[k := p.tasks[k]] == p.tasks;
  }

  /** What a stage that succeeded leads to. */
  ghost predicate GoesOn(s: System, k: CallId, s': System)
    requires k in s.tasks && s.tasks[k].owner in s.plans
  {
    var t := s.tasks[k];
    var next := Next(Stages(s.plans[t.owner]), t.stage);
    match next
    case None => s'.tasks == s.tasks - {k} && s'.loops == LoopsAfter(s, t, Calling) && s'.mux == s.mux
    case Some(stage) => Issues(s, k, t.(stage := stage), s')
  }

  lemma AnnounceGoesOn(s: System, k: CallId)
    requires k in s.tasks && s.tasks[k].owner in s.plans && R.Enabled(s.client, R.CallStart(k))
    requires s.tasks[k].stage in Stages(s.plans[s.tasks[k].owner])
    requires s.tasks[k].stage == Subscribing || (s.tasks[k].stage == Discovering && s.plans[s.tasks[k].owner].topics == [])
    ensures GoesOn(s, k, Announce(s, k))
  {
    NextOf(s.plans[s.tasks[k].owner], s.tasks[k].stage);
    if s.plans[s.tasks[k].owner].announces {
      EnterIssues(s, k, Announcing);
    }
  }

  lemma ProceedGoesOn(s: System, k: CallId, mux: M.Mux)
    requires ActiveTask(s, k) && R.Enabled(s.client, R.CallStart(k))
    requires s.tasks[k].stage in Stages(s.plans[s.tasks[k].owner])
    requires var t := s.tasks[k];
             mux == if t.stage == Subscribing then M.Step(s.mux, M.SubscribeOk(t.owner, s.plans[t.owner].topics)) else s.mux
    ensures GoesOn(s.(mux := mux), k, Proceed(s, k))
  {
    var t := s.tasks[k];
    NextOf(s.plans[t.owner], t.stage);
    match t.stage
    case Discovering =>
      if s.plans[t.owner].topics == [] {
        AnnounceGoesOn(s, k);
      } else {
        EnterIssues(s, k, Subscribing);
      }
    case Subscribing => AnnounceGoesOn(s.(mux := mux), k);
    case Announcing =>
  }

  /** The setup of an entity follows its plan. When a call fails, the setup is over, and a replay ends
      its entity's receive loop. When it succeeds, the next stage's call is issued, unless the client is
      closed; after the last stage the setup is over, and a replay's entity goes back to receiving. */
  lemma SetupFollowsPlan(s: System, m: nat, k: CallId, ec: RawError)
    requires Reachable(s, m) && Enabled(s, TaskDone(k, ec))
    ensures var t, s' := s.tasks[k], Step(s, TaskDone(k, ec));
            var next := Next(Stages(s.plans[t.owner]), t.stage);
            if ec == NoError && next.Some? && s.client.conn != R.Closed then
              s'.tasks == s.tasks[k := t.(stage := next.value)] && s'.loops == s.loops && CallIssued(s', k)
            else
              && s'.tasks == s.tasks - {k}
              && s'.loops == LoopsAfter(s, t, if ec == NoError && next == None then Calling else Ended)
  {
    ReachableFits(s, m);
    var t := s.tasks[k];
    var p := s.(client := R.Step(s.client, R.CallDone(k, ec)));
    if ec == NoError {
      var mux := if t.stage == Subscribing then M.Step(s.mux, M.SubscribeOk(t.owner, s.plans[t.owner].topics)) else s.mux;
      ProceedGoesOn(p, k, mux);
    }
  }

  /** A subscribe that succeeded registers its entity with the topics of its plan; no other call of a
      setup touches the multiplexer. */
  lemma SubscribeRegisters(s: System, m: nat, k: CallId, ec: RawError)
    requires Reachable(s, m) && Enabled(s, TaskDone(k, ec))
    ensures var t, mux, mux' := s.tasks[k], s.mux, Step(s, TaskDone(k, ec)).mux;
            if ec == NoError && t.stage == Subscribing then
              && Registers(mux, t.owner, s.plans[t.owner].topics, mux')
              && t.owner in mux'.clients && NameSet(s.plans[t.owner].topics) <= NameSet(mux'.states[t.owner].topics)
            else mux' == mux
  {
    StepMoves(s, TaskDone(k, ec));
    var t := s.tasks[k];
    UpsertAllNameSet(s.mux.states[t.owner].topics, s.plans[t.owner].topics);
  }

  /** An entity is created with the given plan, no loop and a fresh client. */
  lemma EntityIsAdded(s: System, c: ClientId, plan: Plan)
    requires Enabled(s, AddEntity(c, plan))
    ensures var s' := Step(s, AddEntity(c, plan));
            && s'.plans == s.plans[c := plan] && s'.loops == s.loops[c := NotStarted]
            && s'.mux.states == s.mux.states[c := M.FRESH] && s'.mux.clients == s.mux.clients
            && s'.tasks == s.tasks && s'.closed == s.closed
  {
  }

  /** A setup asked for by the application begins with discovery and moves no loop. */
  lemma SetupBegins(s: System, c: ClientId, k: CallId)
    requires Enabled(s, BeginSetup(c, k))
    ensures Issues(s, k, Task(c, false, Discovering, None), Step(s, BeginSetup(c, k)))
  {
    var t := Task(c, false, Discovering, None);
    IssueCallIssues(s.(tasks := s.tasks[k := t]), k);
    assert s.tasks[k := t] - {k} == s.tasks - {k};
    assert s.tasks[k := t][k := t] == s.tasks[k := t];
  }

  /** A setup woken after a reconnect issues its call on a connected client, and is refused otherwise. */
  lemma WokenSetup(s: System, m: nat, k: CallId)
    requires Reachable(s, m) && Enabled(s, TaskWake(k))
    ensures var t, s' := s.tasks[k], Step(s, TaskWake(k));
            && s'.mux == s.mux
            && if s.client.conn == R.Connected then s'.tasks == s.tasks && s'.loops == s.loops && CallIssued(s', k)
               else s'.tasks == s.tasks - {k} && s'.loops == LoopsAfter(s, t, Ended)
  {
  }

  // ---------- A receive, result by result ----------

  /** The result a step hands to the entity `c`, if any. */
  function HandsOver(s: System, e: Event, c: ClientId): Option<RecvResult>
    requires Enabled(s, e)
  {
    match e
    case LoopRecv(d, _) =>
      if d == c && s.mux.states[c].q.queue != [] then Some(s.mux.states[c].q.queue[0]) else None
    case LoopWake(d, _) => if d == c then Some(RecvQueue.Resumed(s.mux.states[c].q)) else None
    case _ => None
  }

  /** What a result does to its entity's loop: a packet lets it go on, a terminal error ends it, and a
      session reset starts a replay at its first stage, unless the client is closed. */
  ghost predicate Reacts(s: System, c: ClientId, r: RecvResult, k: CallId, s': System) {
    if r == Failed(SessionReset) then Issues(s.(loops := s.loops[c := Replaying(k)]), k, Task(c, true, Discovering, None), s')
    else s'.tasks == s.tasks && s'.client == s.client && s'.mux == s.mux
         && s'.loops == s.loops[c := if Terminal(r) then Ended else Calling]
  }

  lemma GotReacts(s: System, c: ClientId, r: RecvResult, k: CallId)
    requires FreshCall(s, k)
    ensures Reacts(s, c, r, k, Got(s, c, r, k))
  {
    if r == Failed(SessionReset) {
      var t := Task(c, true, Discovering, None);
      var p := s.(loops := s.loops[c := Replaying(k)]);
      IssueCallIssues(p.(tasks := p.tasks[k := t]), k);
      assert p.tasks[k := t] - {k} == p.tasks - {k};
      assert p.tasks[k := t][k := t] == p.tasks[k := t];
    }
  }

  /** The multiplexer after `c` took the head of its queue, or began to wait on an empty one. */
  ghost predicate TookHead(mux: M.Mux, c: ClientId, mux': M.Mux) {
    && c in mux.states && mux'.states.Keys == mux.states.Keys
    && (forall d :: d in mux.states && d != c ==> mux'.states[d] == mux.states[d])
    && mux'.states[c].topics == mux.states[c].topics
    && var q, q' := mux.states[c].q, mux'.states[c].q;
    if q.queue == [] then q'.queue == [] && q'.popped == q.popped && q'.waiting == q.waiting + 1
    else q'.queue == q.queue[1..] && q'.popped == q.popped + [q.queue[0]]
  }

  lemma TakingHead(mux: M.Mux, e: M.Event, c: ClientId)
    requires M.Inv(mux) && M.Enabled(mux, e)
    requires e == M.RecvEnter(c) || (e == M.RecvResume(c) && mux.states[c].q.queue != [])
    ensures TookHead(mux, c, M.Step(mux, e))
  {
  }

  /** A receive of an entity takes exactly the head of its queue, and its loop reacts to it; on an empty
      queue it waits. */
  lemma ReceiveHandsOver(s: System, m: nat, e: Event)
    requires Reachable(s, m) && Enabled(s, e) && (e.LoopRecv? || e.LoopWake?)
    ensures var s', q := Step(s, e), s.mux.states[e.c].q.queue;
            && TookHead(s.mux, e.c, s'.mux)
            && HandsOver(s, e, e.c) == (if q == [] then None else Some(q[0]))
            && if q == [] then s'.loops == s.loops[e.c := Waiting] && s'.tasks == s.tasks && s'.client == s.client
               else Reacts(s.(mux := s'.mux), e.c, q[0], e.k, s')
  {
    ReachableKeepsInv(s, m);
    if e.LoopWake? {
      EntityNeverWakesEmpty(s, m, e.c, e.k);
    }
    var me := if e.LoopRecv? then M.RecvEnter(e.c) else M.RecvResume(e.c);
    TakingHead(s.mux, me, e.c);
    var q := s.mux.states[e.c].q.queue;
    if q != [] {
      GotReacts(s.(mux := M.Step(s.mux, me)), e.c, q[0], e.k);
    }
  }

  // ---------- What ends a loop, and what resumes it ----------

  /** The step makes the replay `k` fail: its call failed, or its next call is refused because the client
      is not connected. */
  predicate FailsReplay(s: System, e: Event, k: CallId)
    requires Enabled(s, e)
  {
    match e
    case TaskDone(j, ec) =>
      j == k && (ec != NoError || (!LastStage(s, k) && s.client.conn == R.Closed))
    case TaskWake(j) => j == k && s.client.conn != R.Connected
    case _ => false
  }

  /** The task is at the last stage of its plan. */
  predicate LastStage(s: System, k: CallId) {
    && k in s.tasks && s.tasks[k].owner in s.plans
    && Next(Stages(s.plans[s.tasks[k].owner]), s.tasks[k].stage) == None
  }

  predicate OfLoop(s: System, e: Event, c: ClientId) {
    || ((e.BeginLoop? || e.LoopRecv? || e.LoopWake?) && e.c == c)
    || ((e.TaskDone? || e.TaskWake?) && c in s.loops && s.loops[c] == Replaying(e.k))
  }

  /** A replay and its entity's loop name each other. */
  lemma ReplayOwner(s: System, k: CallId, c: ClientId)
    requires Tasks(s) && k in s.tasks && c in s.loops
    ensures s.loops[c] == Replaying(k) <==> s.tasks[k].replay && s.tasks[k].owner == c
  {
  }

  lemma LoopsAfterKeep(s: System, k: CallId, c: ClientId, loop: Loop)
    requires Tasks(s) && k in s.tasks && c in s.loops && s.loops[c] != Replaying(k)
    ensures c in LoopsAfter(s, s.tasks[k], loop) && LoopsAfter(s, s.tasks[k], loop)[c] == s.loops[c]
  {
  }

  lemma TasksMoveOwnLoop(s: System, m: nat, e: Event, c: ClientId)
    requires Reachable(s, m) && Enabled(s, e) && c in s.loops
    requires e.TaskDone? || e.TaskWake?
    ensures s.loops[c] != Replaying(e.k) ==> c in Step(s, e).loops && Step(s, e).loops[c] == s.loops[c]
    ensures s.loops[c] == Replaying(e.k) <==> s.tasks[e.k].replay && s.tasks[e.k].owner == c
  {
    ReachableKeepsInv(s, m);
    ReplayOwner(s, e.k, c);
    if s.loops[c] != Replaying(e.k) {
      LoopsAfterKeep(s, e.k, c, Calling);
      LoopsAfterKeep(s, e.k, c, Ended);
    }
    if e.TaskDone? {
      SetupFollowsPlan(s, m, e.k, e.ec);
    } else {
      WokenSetup(s, m, e.k);
    }
  }

  lemma OtherStepsKeepLoops(s: System, e: Event, c: ClientId)
    requires Enabled(s, e) && c in s.loops && c in s.mux.states
    requires !e.TaskDone? && !e.TaskWake? && !e.LoopRecv? && !e.LoopWake? && e != BeginLoop(c)
    ensures c in Step(s, e).loops && Step(s, e).loops[c] == s.loops[c]
  {
  }

  /** A receive loop moves only by its own receives and the calls of its own replay. */
  lemma LoopsMoveAlone(s: System, m: nat, e: Event, c: ClientId)
    requires Reachable(s, m) && Enabled(s, e) && c in s.loops && !OfLoop(s, e, c)
    ensures c in Step(s, e).loops && Step(s, e).loops[c] == s.loops[c]
  {
    ReachableKeepsInv(s, m);
    if e.TaskDone? || e.TaskWake? {
      TasksMoveOwnLoop(s, m, e, c);
    } else if e.LoopRecv? || e.LoopWake? {
      LoopStepKeepsOtherWaits(s, e, c);
    } else {
      OtherStepsKeepLoops(s, e, c);
    }
  }

  /** A receive loop ends exactly when it is handed a terminal error, or a session reset on a closed
      client, or when its replay fails. */
  lemma LoopEndsIff(s: System, m: nat, e: Event, c: ClientId)
    requires Reachable(s, m) && Enabled(s, e) && c in s.loops && s.loops[c] != Ended
    ensures c in Step(s, e).loops
    ensures Step(s, e).loops[c] == Ended <==>
      || (HandsOver(s, e, c).Some? && Terminal(HandsOver(s, e, c).value))
      || (HandsOver(s, e, c) == Some(Failed(SessionReset)) && s.client.conn == R.Closed)
      || (s.loops[c].Replaying? && FailsReplay(s, e, s.loops[c].task))
  {
    if !OfLoop(s, e, c) {
      LoopsMoveAlone(s, m, e, c);
    } else if e.TaskDone? {
      TasksMoveOwnLoop(s, m, e, c);
      SetupFollowsPlan(s, m, e.k, e.ec);
    } else if e.TaskWake? {
      TasksMoveOwnLoop(s, m, e, c);
      WokenSetup(s, m, e.k);
    } else if !e.BeginLoop? {
      ReceiveHandsOver(s, m, e);
    }
  }

  /** A receive loop is ready for its next result exactly after it began, after it was handed a packet, and
      after the last call of its replay succeeded. */
  lemma LoopResumesIff(s: System, m: nat, e: Event, c: ClientId)
    requires Reachable(s, m) && Enabled(s, e) && c in s.loops && OfLoop(s, e, c)
    ensures c in Step(s, e).loops
    ensures Step(s, e).loops[c] == Calling <==>
      || e == BeginLoop(c)
      || (HandsOver(s, e, c).Some? && HandsOver(s, e, c).value.Received?)
      || HandsOver(s, e, c) == Some(Failed(Success))
      || (s.loops[c].Replaying? && e == TaskDone(s.loops[c].task, NoError) && LastStage(s, s.loops[c].task))
  {
    if e.TaskDone? {
      TasksMoveOwnLoop(s, m, e, c);
      SetupFollowsPlan(s, m, e.k, e.ec);
    } else if e.TaskWake? {
      TasksMoveOwnLoop(s, m, e, c);
      WokenSetup(s, m, e.k);
    } else if !e.BeginLoop? {
      ReceiveHandsOver(s, m, e);
    }
  }

  // ---------- What the pump delivers ----------

  /** What the pump's receive returns in this step, if it does. */
  ghost predicate PumpReturns(s: System, recv: R.Event, r: RecvResult)
    requires R.Enabled(s.client, recv)
  {
    R.Returns(s.client, recv, PUMP, r)
  }

  lemma DispatchDelivers(mux: M.Mux, r: RecvResult, c: ClientId)
    requires M.Inv(mux) && mux.pump == M.Receiving && c in mux.states
    ensures c in M.Step(mux, M.Result(r)).states
    ensures M.Step(mux, M.Result(r)).states[c].q.queue ==
            mux.states[c].q.queue + (if M.LiveRegistered(mux, c) && M.Wants(mux.states[c].topics, r) then [r] else [])
  {
    M.DispatchExactlyOnce(mux.states, mux.clients, r);
  }

  /** In a pump step, a result of the physical receive is dispatched, and nothing else happens to the
      multiplexer. */
  lemma PumpForwards(s: System, recv: R.Event)
    requires PumpSync(s) && Enabled(s, PumpStep(recv))
    ensures forall r :: PumpReturns(s, recv, r) ==> Step(s, PumpStep(recv)).mux == M.Step(s.mux, M.Result(r))
    ensures (forall r :: !PumpReturns(s, recv, r)) ==> Step(s, PumpStep(recv)).mux == s.mux
  {
    PumpStepMoves(s, recv);
    var f := R.Step(s.client, recv).recvs[PUMP];
    if f.Returned? {
      assert PumpReturns(s, recv, f.result);
    }
  }

  /** A pump step appends what its receive returned, in the same step and as it is, to the queue of
      exactly the live registered entities that want it; without a result it touches no queue. */
  lemma PumpDelivers(s: System, m: nat, recv: R.Event, r: RecvResult, c: ClientId)
    requires Reachable(s, m) && Enabled(s, PumpStep(recv)) && c in s.mux.states
    ensures c in Step(s, PumpStep(recv)).mux.states
    ensures PumpReturns(s, recv, r) ==>
      Step(s, PumpStep(recv)).mux.states[c].q.queue == s.mux.states[c].q.queue +
      (if M.LiveRegistered(s.mux, c) && M.Wants(s.mux.states[c].topics, r) then [r] else [])
    ensures (forall x :: !PumpReturns(s, recv, x)) ==> Step(s, PumpStep(recv)).mux == s.mux
  {
    ReachableKeepsInv(s, m);
    ReachableIsSync(s, m);
    PumpForwards(s, recv);
    if x :| PumpReturns(s, recv, x) {
      DispatchDelivers(s.mux, x, c);
    }
  }

  /** A packet that arrives reaches the entities registered for its topic unchanged. */
  lemma PacketIsDelivered(s: System, m: nat, p: Packet, c: ClientId)
    requires Reachable(s, m) && Enabled(s, PumpStep(R.PacketArrived(PUMP, p))) && c in s.mux.states
    ensures c in Step(s, PumpStep(R.PacketArrived(PUMP, p))).mux.states
    ensures Step(s, PumpStep(R.PacketArrived(PUMP, p))).mux.states[c].q.queue == s.mux.states[c].q.queue +
      (if M.LiveRegistered(s.mux, c) && p.Publish? && HasName(s.mux.states[c].topics, p.topic) then [Received(p)] else [])
  {
    ReachableKeepsInv(s, m);
    RO.ReceiveReturnsIff(s.client, m, R.PacketArrived(PUMP, p), PUMP, Received(p));
    PumpDelivers(s, m, R.PacketArrived(PUMP, p), Received(p), c);
  }

  // ---------- A replay can complete ----------

  /** The entity's replay is at this stage, with its call in the transport of a connected client. */
  ghost predicate AtStage(s: System, c: ClientId, k: CallId, stage: Stage) {
    && s.linkUp && s.client.conn == R.Connected && Active(s, c) && s.loops[c] == Replaying(k)
    && k in s.tasks && s.tasks[k].owner == c && s.tasks[k].replay && s.tasks[k].stage == stage
    && CallIssued(s, k)
  }

  lemma ResetStartsReplay(s: System, m: nat, c: ClientId, k: CallId)
    requires Reachable(s, m) && s.linkUp && Active(s, c) && s.loops[c] == Calling && FreshCall(s, k)
    requires s.mux.states[c].q.queue != [] && s.mux.states[c].q.queue[0] == Failed(SessionReset)
    ensures Enabled(s, LoopRecv(c, k))
    ensures var s' := Step(s, LoopRecv(c, k));
            AtStage(s', c, k, Discovering) && s'.tasks[k].grant == None && s'.plans == s.plans
  {
    ReachableKeepsInv(s, m);
    ReceiveHandsOver(s, m, LoopRecv(c, k));
    LoopStepLeavesPump(s, LoopRecv(c, k));
    KeepsActive(s, LoopRecv(c, k), c);
  }

  ghost predicate KeepsPlans(s: System, s': System) {
    s'.plans == s.plans && s'.session == s.session && s'.closed == s.closed && s.loops.Keys <= s'.loops.Keys
  }

  lemma ProceedKeepsPlans(s: System, k: CallId)
    requires ActiveTask(s, k) && R.Enabled(s.client, R.CallStart(k))
    ensures KeepsPlans(s, Proceed(s, k))
  {
  }

  lemma GotKeepsPlans(s: System, c: ClientId, r: RecvResult, k: CallId)
    requires FreshCall(s, k)
    ensures KeepsPlans(s, Got(s, c, r, k))
  {
  }

  lemma StepKeepsPlans(s: System, e: Event)
    requires Enabled(s, e) && (e.LoopRecv? || e.TaskDone?)
    ensures KeepsPlans(s, Step(s, e))
  {
    if e.LoopRecv? {
      var q := s.mux.states[e.c].q.queue;
      if q != [] {
        GotKeepsPlans(s.(mux := M.Step(s.mux, M.RecvEnter(e.c))), e.c, q[0], e.k);
      }
    } else if e.ec == NoError {
      ProceedKeepsPlans(s.(client := R.Step(s.client, R.CallDone(e.k, e.ec))), e.k);
    }
  }

  lemma KeepsLive(mux: M.Mux, e: Option<M.Event>, mux': M.Mux, c: ClientId)
    requires MuxMoves(mux, e, mux') && (e.Some? ==> e.value.RecvEnter? || e.value.SubscribeOk?) && M.Live(mux, c)
    ensures M.Live(mux', c)
  {
  }

  lemma KeepsActive(s: System, e: Event, c: ClientId)
    requires Enabled(s, e) && Active(s, c) && (e.LoopRecv? || e.TaskDone?)
    ensures Active(Step(s, e), c) && KeepsPlans(s, Step(s, e))
  {
    StepMoves(s, e);
    StepKeepsPlans(s, e);
    KeepsLive(s.mux, MuxEvent(s, e), Step(s, e).mux, c);
  }

  lemma GrantCanCome(s: System, c: ClientId, k: CallId)
    requires AtStage(s, c, k, Subscribing) && s.tasks[k].grant == None
    ensures Enabled(s, BrokerGrants(k))
    ensures var s' := Step(s, BrokerGrants(k));
            && AtStage(s', c, k, Subscribing) && s'.tasks[k].grant == Some(s'.epoch)
            && s'.plans == s.plans && NameSet(s.plans[c].topics) <= s'.session
  {
  }

  /** The call of the stage may succeed, and then the replay is at its next stage or complete. */
  lemma StageCanSucceed(s: System, m: nat, c: ClientId, k: CallId, stage: Stage)
    requires Reachable(s, m) && AtStage(s, c, k, stage)
    requires stage == Subscribing ==> s.tasks[k].grant == Some(s.epoch)
    ensures Enabled(s, TaskDone(k, NoError))
    ensures var s' := Step(s, TaskDone(k, NoError));
            var next := Next(Stages(s.plans[c]), stage);
            && s'.plans == s.plans && s'.session == s.session && c in s'.loops
            && if next == None then s'.loops[c] == Calling
               else AtStage(s', c, k, next.value) && s'.tasks[k].grant == s.tasks[k].grant
  {
    SetupFollowsPlan(s, m, k, NoError);
    TaskStepLeavesPump(s, TaskDone(k, NoError));
    KeepsActive(s, TaskDone(k, NoError), c);
  }

  lemma ExtendReach(s: System, m: nat, es: seq<Event>, e: Event)
    requires ValidRun(s, es) && Reachable(Run(s, es), m) && Enabled(Run(s, es), e)
    ensures ValidRun(s, es + [e]) && Run(s, es + [e]) == Step(Run(s, es), e) && Reachable(Run(s, es + [e]), m)
  {
    ExtendRun(s, es, e);
    StepReachable(Run(s, es), m, e);
  }

  /** From any stage, with no grant yet for a subscribe still to come, the run can go on until the loop is
      ready again, with every topic of the plan held by the broker. */
  lemma StagesCanSucceed(s: System, m: nat, es: seq<Event>, c: ClientId, k: CallId, stage: Stage) returns (fs: seq<Event>)
    requires ValidRun(s, es) && Reachable(Run(s, es), m) && AtStage(Run(s, es), c, k, stage)
    requires stage != Announcing ==> Run(s, es).tasks[k].grant == None
    requires stage == Announcing || Run(s, es).plans[c].topics == [] ==>
      NameSet(Run(s, es).plans[c].topics) <= Run(s, es).session
    ensures ValidRun(s, fs) && c in Run(s, fs).loops && Run(s, fs).loops[c] == Calling
    ensures c in Run(s, fs).plans && Run(s, fs).plans[c] == Run(s, es).plans[c]
    ensures NameSet(Run(s, fs).plans[c].topics) <= Run(s, fs).session
    decreases match stage case Discovering => 2 case Subscribing => 1 case Announcing => 0
  {
    var p := Run(s, es);
    ReachableFits(p, m);
    NextOf(p.plans[c], stage);
    fs := es;
    if stage == Subscribing {
      GrantCanCome(p, c, k);
      ExtendReach(s, m, fs, BrokerGrants(k));
      fs := fs + [BrokerGrants(k)];
    }
    StageCanSucceed(Run(s, fs), m, c, k, stage);
    ExtendReach(s, m, fs, TaskDone(k, NoError));
    fs := fs + [TaskDone(k, NoError)];
    var next := Next(Stages(p.plans[c]), stage);
    if next.Some? {
      fs := StagesCanSucceed(s, m, fs, c, k, next.value);
    }
  }

  /** While the link is up, an entity that finds a session reset can always complete its replay: some run
      leads from there to a loop ready for its next result, with every topic of the entity's plan held by
      the broker. */
  lemma ReplayCanRestore(s: System, m: nat, c: ClientId, k: CallId) returns (fs: seq<Event>)
    requires Reachable(s, m) && s.linkUp && Active(s, c) && s.loops[c] == Calling && FreshCall(s, k)
    requires s.mux.states[c].q.queue != [] && s.mux.states[c].q.queue[0] == Failed(SessionReset)
    ensures ValidRun(s, fs) && c in Run(s, fs).loops && Run(s, fs).loops[c] == Calling
    ensures NameSet(s.plans[c].topics) <= Run(s, fs).session
  {
    ResetStartsReplay(s, m, c, k);
    ExtendReach(s, m, [], LoopRecv(c, k));
    assert NameSet([]) == {};
    fs := StagesCanSucceed(s, m, [] + [LoopRecv(c, k)], c, k, Discovering);
  }
}
