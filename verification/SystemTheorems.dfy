/** What the composed system guarantees over whole runs. */
module SystemTheorems {
  import opened Mqtt
  import opened Errors
  import opened TopicList
  import opened System
  import opened Restoration
  import M = Multiplexer
  import R = Reconnect
  import RecvQueue
  import Entity
  import EntityConfig

  // ---------- The components run their own machines ----------

  /** The multiplexer event performed by a step, if any. */
  function MuxEvent(s: System, e: Event): Option<M.Event>
    requires Enabled(s, e)
  {
    match e
    case AddEntity(c, _) => Some(M.MakeClient(c))
    case LoopRecv(c, _) => Some(M.RecvEnter(c))
    case LoopWake(c, _) => Some(M.RecvResume(c))
    case TaskDone(k, ec) =>
      var t := s.tasks[k];
      if ec == NoError && t.stage == Subscribing then Some(M.SubscribeOk(t.owner, s.plans[t.owner].topics)) else None
    case PumpBegin => Some(M.Prune)
    case PumpStep(recv) =>
      var f := R.Step(s.client, recv).recvs[PUMP];
      if f.Returned? then Some(M.Result(f.result)) else None
    case Detach(c) => Some(M.Detach(c))
    case Expire(c) => Some(M.Expire(c))
    case _ => None
  }

  ghost predicate MuxMoves(mux: M.Mux, e: Option<M.Event>, mux': M.Mux) {
    match e
    case None => mux' == mux
    case Some(me) => M.Enabled(mux, me) && mux' == M.Step(mux, me)
  }

  /** The call of the task's stage is followed by another one. */
  predicate HasNext(s: System, k: CallId)
    requires ActiveTask(s, k)
  {
    var t, plan := s.tasks[k], s.plans[s.tasks[k].owner];
    match t.stage
    case Discovering => plan.topics != [] || plan.announces
    case Subscribing => plan.announces
    case Announcing => false
  }

  /** The physical client's events performed by a step: one, or none, or the end of a setup call and the
      start of the next one. */
  function ClientEvents(s: System, e: Event): seq<R.Event>
    requires Enabled(s, e)
  {
    match e
    case Connect(ec) => [R.ConnectDone(ec)]
    case Close => [R.CloseDone]
    case BeginSetup(_, k) => [R.CallStart(k)]
    case LoopRecv(c, k) =>
      var q := s.mux.states[c].q.queue;
      if q != [] && q[0] == Failed(SessionReset) then [R.CallStart(k)] else []
    case LoopWake(c, k) =>
      if RecvQueue.Resumed(s.mux.states[c].q) == Failed(SessionReset) then [R.CallStart(k)] else []
    case TaskWake(k) => [R.CallResume(k)]
    case TaskDone(k, ec) => [R.CallDone(k, ec)] + (if ec == NoError && HasNext(s, k) then [R.CallStart(k)] else [])
    case OtherCall(call) => [call]
    case PumpBegin => [R.RecvStart(PUMP)]
    case PumpStep(recv) => [recv]
    case _ => []
  }

  ghost predicate ClientMoves(client: R.Client, es: seq<R.Event>, client': R.Client)
    decreases |es|
  {
    if es == [] then client' == client
    else R.Enabled(client, es[0]) && ClientMoves(R.Step(client, es[0]), es[1..], client')
  }

  ghost predicate Moves(s: System, e: Event)
    requires Enabled(s, e)
  {
    MuxMoves(s.mux, MuxEvent(s, e), Step(s, e).mux) && ClientMoves(s.client, ClientEvents(s, e), Step(s, e).client)
  }

  lemma OneClientMove(client: R.Client, e: R.Event)
    requires R.Enabled(client, e)
    ensures ClientMoves(client, [e], R.Step(client, e))
  {
    assert [e][1..] == [];
  }

  lemma TwoClientMoves(client: R.Client, e: R.Event, e': R.Event)
    requires R.Enabled(client, e) && R.Enabled(R.Step(client, e), e')
    ensures ClientMoves(client, [e] + [e'], R.Step(R.Step(client, e), e'))
  {
    OneClientMove(R.Step(client, e), e');
    assert ([e] + [e'])[1..] == [e'];
  }

  lemma ProceedMoves(s: System, k: CallId)
    requires ActiveTask(s, k) && R.Enabled(s.client, R.CallStart(k))
    ensures Proceed(s, k).client == if HasNext(s, k) then R.Step(s.client, R.CallStart(k)) else s.client
    ensures Proceed(s, k).mux ==
      if s.tasks[k].stage == Subscribing
      then M.Step(s.mux, M.SubscribeOk(s.tasks[k].owner, s.plans[s.tasks[k].owner].topics)) else s.mux
  {
  }

  lemma TaskMoves(s: System, e: Event)
    requires Enabled(s, e) && (e.TaskWake? || e.TaskDone?)
    ensures Moves(s, e)
  {
    var call := if e.TaskWake? then R.CallResume(e.k) else R.CallDone(e.k, e.ec);
    OneClientMove(s.client, call);
    if e.TaskDone? {
      TwoClientMoves(s.client, call, R.CallStart(e.k));
      if e.ec == NoError {
        ProceedMoves(s.(client := R.Step(s.client, call)), e.k);
      }
      assert [call] + [] == [call];
    }
  }

  lemma AfterPumpMoves(s: System, recv: R.Event, client: R.Client)
    requires s.mux.pump == M.Receiving && PUMP in client.recvs
    ensures AfterPump(s, recv, client).client == client
    ensures var f := client.recvs[PUMP];
            AfterPump(s, recv, client).mux == if f.Returned? then M.Step(s.mux, M.Result(f.result)) else s.mux
  {
  }

  lemma PumpStepMoves(s: System, recv: R.Event)
    requires Enabled(s, PumpStep(recv))
    ensures Moves(s, PumpStep(recv))
  {
    OneClientMove(s.client, recv);
    AfterPumpMoves(s, recv, R.Step(s.client, recv));
  }

  lemma GotMoves(s: System, c: ClientId, r: RecvResult, k: CallId)
    requires FreshCall(s, k)
    ensures Got(s, c, r, k).mux == s.mux
    ensures ClientMoves(s.client, if r == Failed(SessionReset) then [R.CallStart(k)] else [], Got(s, c, r, k).client)
  {
    OneClientMove(s.client, R.CallStart(k));
  }

  lemma LoopMoves(s: System, e: Event)
    requires Enabled(s, e) && (e.LoopRecv? || e.LoopWake?)
    ensures Moves(s, e)
  {
    var s' := s.(mux := M.Step(s.mux, if e.LoopRecv? then M.RecvEnter(e.c) else M.RecvResume(e.c)));
    var q := s.mux.states[e.c].q;
    if e.LoopWake? || q.queue != [] {
      GotMoves(s', e.c, if e.LoopWake? then RecvQueue.Resumed(q) else q.queue[0], e.k);
    }
  }

  lemma OtherMoves(s: System, e: Event)
    requires Enabled(s, e) && (e.PumpBegin? || e.BeginSetup? || e.OtherCall? || e.Connect? || e.Close?)
    ensures Moves(s, e)
  {
    OneClientMove(s.client, ClientEvents(s, e)[0]);
  }

  /** Every step of the composed system performs exactly these events of its two machines: what was proved
      of their runs holds of the composition, and nothing else happens to them. */
  lemma StepMoves(s: System, e: Event)
    requires Enabled(s, e)
    ensures Moves(s, e)
  {
    match e
    case TaskWake(_) => TaskMoves(s, e);
    case TaskDone(_, _) => TaskMoves(s, e);
    case LoopRecv(_, _) => LoopMoves(s, e);
    case LoopWake(_, _) => LoopMoves(s, e);
    case PumpStep(recv) => PumpStepMoves(s, recv);
    case PumpBegin => OtherMoves(s, e);
    case BeginSetup(_, _) => OtherMoves(s, e);
    case OtherCall(_) => OtherMoves(s, e);
    case Connect(_) => OtherMoves(s, e);
    case Close => OtherMoves(s, e);
    case _ =>
  }

  ghost predicate MuxReachable(mux: M.Mux) {
    exists ms :: M.ValidRun(ms) && mux == M.Run(ms)
  }

  lemma MuxMoveReachable(mux: M.Mux, e: Option<M.Event>, mux': M.Mux)
    requires MuxReachable(mux) && MuxMoves(mux, e, mux')
    ensures MuxReachable(mux')
  {
    if e.Some? {
      var ms :| M.ValidRun(ms) && mux == M.Run(ms);
      M.ExtendRun(ms, e.value);
    }
  }

  lemma ClientStepReachable(client: R.Client, e: R.Event, m: nat)
    requires R.Reachable(client, m) && R.Enabled(client, e)
    ensures R.Reachable(R.Step(client, e), m)
  {
    var rs :| R.ValidRun(R.Initial(m), rs) && client == R.Run(R.Initial(m), rs);
    R.ExtendRun(R.Initial(m), rs, e);
  }

  lemma {:induction false} ClientMoveReachable(client: R.Client, es: seq<R.Event>, client': R.Client, m: nat)
    requires R.Reachable(client, m) && ClientMoves(client, es, client')
    ensures R.Reachable(client', m)
    decreases |es|
  {
    if es != [] {
      ClientStepReachable(client, es[0], m);
      ClientMoveReachable(R.Step(client, es[0]), es[1..], client', m);
    }
  }

  /** In every run of the composed system the multiplexer and the physical client make runs of their
      own, so what was proved of those runs holds here; and the restoration invariant is kept. */
  lemma {:induction false} RunKeepsInv(m: nat, es: seq<Event>)
    requires ValidRun(Initial(m), es)
    ensures MuxReachable(Run(Initial(m), es).mux) && R.Reachable(Run(Initial(m), es).client, m)
    ensures M.Inv(Run(Initial(m), es).mux) && R.Inv(Run(Initial(m), es).client)
    ensures Inv(Run(Initial(m), es))
  {
    if es == [] {
      assert M.ValidRun([]) && M.Run([]) == M.INITIAL;
      assert R.ValidRun(R.Initial(m), []) && R.Run(R.Initial(m), []) == R.Initial(m);
    } else {
      var s, e := Run(Initial(m), es[..|es| - 1]), es[|es| - 1];
      RunKeepsInv(m, es[..|es| - 1]);
      StepKeepsInv(s, e);
      StepMoves(s, e);
      MuxMoveReachable(s.mux, MuxEvent(s, e), Step(s, e).mux);
      ClientMoveReachable(s.client, ClientEvents(s, e), Step(s, e).client, m);
    }
    ReachableInv(Run(Initial(m), es), m);
  }

  lemma ReachableInv(s: System, m: nat)
    requires MuxReachable(s.mux) && R.Reachable(s.client, m)
    ensures M.Inv(s.mux) && R.Inv(s.client)
  {
    var ms :| M.ValidRun(ms) && s.mux == M.Run(ms);
    M.RunKeepsInv(ms);
    R.ReconnectInvariant(s.client, m);
  }

  lemma ReachableKeepsInv(s: System, m: nat)
    requires Reachable(s, m)
    ensures MuxReachable(s.mux) && R.Reachable(s.client, m)
    ensures M.Inv(s.mux) && R.Inv(s.client) && Inv(s)
  {
    var es :| ValidRun(Initial(m), es) && s == Run(Initial(m), es);
    RunKeepsInv(m, es);
  }

  // ---------- The theorems ----------

  /** Subscription restoration: in every reachable state with the link up, every topic of every live
      registered entity whose receive loop has not ended is held by the broker's current session, or
      a session reset waits in that entity's queue, or the entity is replaying its setup up to and
      including its subscribe. */
  lemma SubscriptionRestoration(s: System, m: nat, c: ClientId, t: TopicSubopts)
    requires Reachable(s, m) && s.linkUp
    requires Running(s, c) && t in s.mux.states[c].topics
    ensures t.topic in s.session || ResetQueued(s, c) || ReplaysSubscribe(s, c)
  {
    ReachableKeepsInv(s, m);
    assert Covered(s, c);
  }

  /** The link comes up again only in the step that opens a new session and queues a session reset for
      every live registered client, so what a lost session held is due to be replayed before the connection is used. */
  lemma LinkUpBroadcastsReset(s: System, m: nat, e: Event)
    requires Reachable(s, m) && Enabled(s, e)
    requires s.epoch > 0 && !s.linkUp && Step(s, e).linkUp
    ensures e == PumpStep(R.StartDone(PUMP, NoError))
    ensures forall c :: M.LiveRegistered(s.mux, c) ==> ResetQueued(Step(s, e), c)
    ensures Step(s, e).session == {} && Step(s, e).epoch == s.epoch + 1
  {
    ReachableKeepsInv(s, m);
    LinkUpEvent(s, e);
    DispatchGrowsQueues(s.mux, Failed(SessionReset));
  }

  lemma LinkUpEvent(s: System, e: Event)
    requires Enabled(s, e) && s.epoch > 0 && !s.linkUp && Step(s, e).linkUp
    ensures e == PumpStep(R.StartDone(PUMP, NoError))
  {
  }

  lemma OnlyReceivesShorten(mux: M.Mux, e: M.Event, c: ClientId, r: RecvResult)
    requires M.Inv(mux) && M.Enabled(mux, e) && e !in {M.RecvEnter(c), M.RecvResume(c)}
    requires c in mux.states && r in mux.states[c].q.queue
    ensures c in M.Step(mux, e).states && r in M.Step(mux, e).states[c].q.queue
  {
    if e.Result? {
      DispatchGrowsQueues(mux, e.r);
    }
  }

  /** Only its own receive takes a session reset out of an entity's queue. */
  lemma OnlyOwnerTakesReset(s: System, e: Event, c: ClientId)
    requires M.Inv(s.mux) && Enabled(s, e) && ResetQueued(s, c)
    requires !((e.LoopRecv? || e.LoopWake?) && e.c == c)
    ensures ResetQueued(Step(s, e), c)
  {
    StepMoves(s, e);
    var me := MuxEvent(s, e);
    if me.Some? {
      OnlyReceivesShorten(s.mux, me.value, c, Failed(SessionReset));
    }
  }

  lemma TakingResetReplays(s: System, c: ClientId, k: CallId)
    requires FreshCall(s, k)
    ensures c in Got(s, c, Failed(SessionReset), k).loops
    ensures ReplaysSubscribe(Got(s, c, Failed(SessionReset), k), c) || Got(s, c, Failed(SessionReset), k).loops[c] == Ended
  {
  }

  lemma TakenResetIsReplayed(s: System, e: Event, c: ClientId)
    requires M.Inv(s.mux) && Enabled(s, e)
    requires ResetQueued(s, c) && !ResetQueued(Step(s, e), c)
    ensures (e.LoopRecv? || e.LoopWake?) && e.c == c
    ensures c in Step(s, e).loops && (ReplaysSubscribe(Step(s, e), c) || Step(s, e).loops[c] == Ended)
  {
    if !((e.LoopRecv? || e.LoopWake?) && e.c == c) {
      OnlyOwnerTakesReset(s, e, c);
    } else {
      var q := s.mux.states[c].q.queue;
      assert q == [q[0]] + q[1..];
      var take := if e.LoopRecv? then M.RecvEnter(c) else M.RecvResume(c);
      TakingResetReplays(s.(mux := M.Step(s.mux, take)), c, e.k);
    }
  }

  /** A queued session reset leaves the queue only into the hands of its entity, which then replays
      its setup or ends its loop because the client refused the replay's first call. */
  lemma ResetIsReplayed(s: System, m: nat, e: Event, c: ClientId)
    requires Reachable(s, m) && Enabled(s, e)
    requires ResetQueued(s, c) && !ResetQueued(Step(s, e), c)
    ensures (e.LoopRecv? || e.LoopWake?) && e.c == c
    ensures c in Step(s, e).loops && (ReplaysSubscribe(Step(s, e), c) || Step(s, e).loops[c] == Ended)
  {
    ReachableKeepsInv(s, m);
    TakenResetIsReplayed(s, e, c);
  }

  // ---------- When restoration can still happen ----------

  /** The pump's receive call and the pump loop agree. */
  ghost predicate PumpSync(s: System) {
    && s.client.recvs.Keys <= {PUMP}
    && (s.mux.pump == M.Receiving <==> PUMP in s.client.recvs && !s.client.recvs[PUMP].Returned?)
  }

  /** A lost link can come back: the reconnect loop is active, or the pump will find the link broken
      while the client still counts as connected and may try to reconnect. */
  ghost predicate Restorable(s: System) {
    || R.InLoop(s.client, PUMP)
    || (s.client.conn == R.Connected && s.mux.pump != M.Ended && s.client.maxAttempts > 0)
  }

  /** Setups and loops of entities leave the link, the pump and the connection state alone. */
  ghost predicate LeavesPump(s: System, s': System) {
    && s'.mux.pump == s.mux.pump && s'.client.recvs == s.client.recvs
    && s'.client.conn == s.client.conn && s'.client.maxAttempts == s.client.maxAttempts
    && s'.linkUp == s.linkUp && s'.epoch == s.epoch
  }

  lemma ProceedLeavesPump(s: System, k: CallId)
    requires ActiveTask(s, k) && R.Enabled(s.client, R.CallStart(k))
    ensures LeavesPump(s, Proceed(s, k))
  {
  }

  lemma TaskStepLeavesPump(s: System, e: Event)
    requires Enabled(s, e) && (e.TaskWake? || e.TaskDone?)
    ensures LeavesPump(s, Step(s, e))
  {
    if e.TaskDone? && e.ec == NoError {
      ProceedLeavesPump(s.(client := R.Step(s.client, R.CallDone(e.k, e.ec))), e.k);
    }
  }

  lemma GotLeavesPump(s: System, c: ClientId, r: RecvResult, k: CallId)
    requires FreshCall(s, k)
    ensures LeavesPump(s, Got(s, c, r, k))
  {
  }

  lemma LoopStepLeavesPump(s: System, e: Event)
    requires Enabled(s, e) && (e.LoopRecv? || e.LoopWake?)
    ensures LeavesPump(s, Step(s, e))
  {
    var s' := s.(mux := M.Step(s.mux, if e.LoopRecv? then M.RecvEnter(e.c) else M.RecvResume(e.c)));
    var q := s.mux.states[e.c].q;
    if e.LoopWake? || q.queue != [] {
      GotLeavesPump(s', e.c, if e.LoopWake? then RecvQueue.Resumed(q) else q.queue[0], e.k);
    }
  }

  lemma EntityStepLeavesPump(s: System, e: Event)
    requires Enabled(s, e) && EntityEvent(e)
    ensures LeavesPump(s, Step(s, e))
  {
    if e.TaskWake? || e.TaskDone? {
      TaskStepLeavesPump(s, e);
    } else if e.LoopRecv? || e.LoopWake? {
      LoopStepLeavesPump(s, e);
    }
  }

  lemma AfterPumpIsSync(s: System, recv: R.Event, client: R.Client)
    requires s.mux.pump == M.Receiving && PUMP in client.recvs && client.recvs.Keys <= {PUMP}
    ensures PumpSync(AfterPump(s, recv, client))
  {
  }

  lemma PumpStepKeepsSync(s: System, recv: R.Event)
    requires PumpSync(s) && Enabled(s, PumpStep(recv))
    ensures PumpSync(Step(s, PumpStep(recv)))
  {
    AfterPumpIsSync(s, recv, R.Step(s.client, recv));
  }

  lemma StepKeepsPumpSync(s: System, e: Event)
    requires PumpSync(s) && Enabled(s, e)
    ensures PumpSync(Step(s, e))
  {
    if EntityEvent(e) {
      EntityStepLeavesPump(s, e);
    } else if e.PumpStep? {
      PumpStepKeepsSync(s, e.recv);
    }
  }

  lemma {:induction false} RunKeepsPumpSync(m: nat, es: seq<Event>)
    requires ValidRun(Initial(m), es)
    ensures PumpSync(Run(Initial(m), es))
  {
    if es != [] {
      RunKeepsPumpSync(m, es[..|es| - 1]);
      StepKeepsPumpSync(Run(Initial(m), es[..|es| - 1]), es[|es| - 1]);
    }
  }

  lemma ReachableIsSync(s: System, m: nat)
    requires Reachable(s, m)
    ensures PumpSync(s)
  {
    var es :| ValidRun(Initial(m), es) && s == Run(Initial(m), es);
    RunKeepsPumpSync(m, es);
  }

  ghost predicate Lost(s: System) {
    s.epoch > 0 && !s.linkUp && !Restorable(s) && PumpSync(s)
  }

  lemma LostStepStays(s: System, e: Event)
    requires Lost(s) && Enabled(s, e)
    ensures Lost(Step(s, e))
  {
    StepKeepsPumpSync(s, e);
    if EntityEvent(e) {
      EntityStepLeavesPump(s, e);
    }
  }

  lemma {:induction false} LostStays(s: System, es: seq<Event>)
    requires Lost(s) && ValidRun(s, es)
    ensures Lost(Run(s, es))
  {
    if es != [] {
      LostStays(s, es[..|es| - 1]);
      LostStepStays(Run(s, es[..|es| - 1]), es[|es| - 1]);
    }
  }

  lemma ExtendRun(s: System, es: seq<Event>, e: Event)
    requires ValidRun(s, es) && Enabled(Run(s, es), e)
    ensures ValidRun(s, es + [e]) && Run(s, es + [e]) == Step(Run(s, es), e)
  {
    assert (es + [e])[..|es + [e]| - 1] == es;
  }

  function PumpPhase(s: System): nat
    requires PUMP in s.client.recvs || s.mux.pump != M.Receiving
  {
    if s.mux.pump != M.Receiving then 4
    else
      match s.client.recvs[PUMP]
      case Sleeping(_) => 2
      case Handshaking(_) => 1
      case Starting(_) => 0
      case _ => 3
  }

  ghost predicate OnTheWay(s: System) {
    Restorable(s) && PumpSync(s) && !s.linkUp && (s.client.conn == R.Connected ==> s.client.attempt == 0)
  }

  function NextPumpEvent(s: System): Event
    requires PUMP in s.client.recvs || s.mux.pump != M.Receiving
  {
    match PumpPhase(s)
    case 4 => PumpBegin
    case 3 => PumpStep(R.TransportBroken(PUMP))
    case 2 => PumpStep(R.SleepOver(PUMP))
    case 1 => PumpStep(R.HandshakeDone(PUMP, NoError))
    case _ => PumpStep(R.StartDone(PUMP, NoError))
  }

  lemma NextStepOutsideLoop(s: System)
    requires OnTheWay(s) && PumpPhase(s) >= 3
    ensures Enabled(s, NextPumpEvent(s))
    ensures OnTheWay(Step(s, NextPumpEvent(s))) && PumpPhase(Step(s, NextPumpEvent(s))) < PumpPhase(s)
  {
    if PumpPhase(s) == 3 {
      PumpStepKeepsSync(s, R.TransportBroken(PUMP));
    }
  }

  lemma NextStepInLoop(s: System)
    requires OnTheWay(s) && PumpPhase(s) < 3
    ensures Enabled(s, NextPumpEvent(s))
    ensures var s' := Step(s, NextPumpEvent(s));
            if PumpPhase(s) == 0 then s'.linkUp else OnTheWay(s') && PumpPhase(s') < PumpPhase(s)
  {
  }

  /** The run `es` can be continued until the link is up. */
  lemma CanRestore(s: System, es: seq<Event>) returns (fs: seq<Event>)
    requires ValidRun(s, es) && OnTheWay(Run(s, es))
    ensures ValidRun(s, fs) && Run(s, fs).linkUp
    decreases PumpPhase(Run(s, es))
  {
    var p := Run(s, es);
    var e := NextPumpEvent(p);
    if PumpPhase(p) >= 3 {
      NextStepOutsideLoop(p);
    } else {
      NextStepInLoop(p);
    }
    ExtendRun(s, es, e);
    fs := es + [e];
    if PumpPhase(p) > 0 {
      fs := CanRestore(s, fs);
    }
  }

  /** No run from here has its link up. */
  ghost predicate Stranded(s: System) {
    forall fs :: ValidRun(s, fs) ==> !Run(s, fs).linkUp
  }

  /** A lost link can come back, and with it every replay, exactly while the reconnect loop is active
      or the pump is alive on a client that counts as connected with attempts to spend. Otherwise
      no run restores it, as after a pump ended by an invalid packet or by a close. */
  lemma RestorationPossibleIff(s: System, m: nat)
    requires Reachable(s, m) && s.epoch > 0 && !s.linkUp
    ensures !Stranded(s) <==> Restorable(s)
  {
    ReachableKeepsInv(s, m);
    ReachableIsSync(s, m);
    if Restorable(s) {
      var fs := CanRestore(s, []);
    } else {
      forall fs | ValidRun(s, fs) ensures !Run(s, fs).linkUp {
        LostStays(s, fs);
      }
    }
  }

  lemma InvalidPacketEndsPump(s: System)
    requires Enabled(s, PumpStep(R.NoPacket(PUMP)))
    ensures var s' := Step(s, PumpStep(R.NoPacket(PUMP)));
            && s'.mux.pump == M.Ended && s'.client.conn == s.client.conn && s'.linkUp == s.linkUp && s'.epoch == s.epoch
            && !R.InLoop(s'.client, PUMP)
  {
  }

  lemma StepReachable(s: System, m: nat, e: Event)
    requires Reachable(s, m) && Enabled(s, e)
    ensures Reachable(Step(s, e), m)
  {
    var es :| ValidRun(Initial(m), es) && s == Run(Initial(m), es);
    ExtendRun(Initial(m), es, e);
  }

  /** In every reachable state with the link up, an invalid packet ends the pump while the client still
      counts as connected: when the link then drops, nothing finds it broken, and no run restores it. */
  lemma InvalidPacketStrandsLink(s: System, m: nat)
    requires Reachable(s, m) && s.linkUp && Enabled(s, PumpStep(R.NoPacket(PUMP)))
    ensures var s' := Step(s, PumpStep(R.NoPacket(PUMP)));
            && Enabled(s', LinkDrop)
            && Step(s', LinkDrop).client.conn == R.Connected && Stranded(Step(s', LinkDrop))
  {
    var s' := Step(s, PumpStep(R.NoPacket(PUMP)));
    ReachableKeepsInv(s, m);
    InvalidPacketEndsPump(s);
    StepReachable(s, m, PumpStep(R.NoPacket(PUMP)));
    StepReachable(s', m, LinkDrop);
    RestorationPossibleIff(Step(s', LinkDrop), m);
  }

  lemma ConnectFirst(m: nat)
    ensures ValidRun(Initial(m), [Connect(NoError)])
    ensures var s := Run(Initial(m), [Connect(NoError)]);
            s.linkUp && s.mux == M.INITIAL && s.client == R.Initial(m).(conn := R.Connected)
  {
    ExtendRun(Initial(m), [], Connect(NoError));
    assert [] + [Connect(NoError)] == [Connect(NoError)];
  }

  /** Such states are reachable, whatever the number of attempts. */
  lemma PumpCanWait(m: nat)
    ensures exists s :: Reachable(s, m) && s.linkUp && Enabled(s, PumpStep(R.NoPacket(PUMP)))
  {
    ConnectFirst(m);
    ExtendRun(Initial(m), [Connect(NoError)], PumpBegin);
    var s := Run(Initial(m), [Connect(NoError)] + [PumpBegin]);
    assert Reachable(s, m) && Enabled(s, PumpStep(R.NoPacket(PUMP)));
  }

  // ---------- No empty wakeup ----------

  /** An entity waits in at most one receive, and is woken only with a result in its queue. */
  ghost predicate WakeSync(s: System, c: ClientId) {
    c in s.mux.states && c in s.loops ==>
      var q := s.mux.states[c].q;
      && q.waiting + q.woken == (if s.loops[c] == Waiting then 1 else 0)
      && (q.woken > 0 ==> q.queue != []) && (q.waiting > 0 ==> q.queue == [])
  }

  lemma OtherMuxStepKeepsWaiters(mux: M.Mux, e: M.Event, d: ClientId)
    requires M.Inv(mux) && M.Enabled(mux, e) && e !in {M.RecvEnter(d), M.RecvResume(d)} && d in mux.states
    requires mux.states[d].q.woken > 0 ==> mux.states[d].q.queue != []
    ensures d in M.Step(mux, e).states
    ensures var q, q' := mux.states[d].q, M.Step(mux, e).states[d].q;
            && q'.waiting + q'.woken == q.waiting + q.woken
            && (q'.woken > 0 ==> q'.queue != [])
  {
    if e.Result? {
      M.DispatchExactlyOnce(mux.states, mux.clients, e.r);
    }
  }

  lemma OwnTakeKeepsWaiters(mux: M.Mux, e: M.Event, c: ClientId, waits: bool)
    requires M.Inv(mux) && M.Enabled(mux, e) && e == (if waits then M.RecvResume(c) else M.RecvEnter(c))
    requires mux.states[c].q.waiting + mux.states[c].q.woken == if waits then 1 else 0
    ensures var q, q' := mux.states[c].q, M.Step(mux, e).states[c].q;
            && q'.waiting + q'.woken == (if !waits && q.queue == [] then 1 else 0)
            && q'.woken == 0
  {
  }

  /** Only the loop of a replaying entity is touched by a task. */
  ghost predicate SameWaits(s: System, s': System) {
    s'.loops.Keys == s.loops.Keys &&
    forall d :: d in s.loops ==> (s'.loops[d] == Waiting <==> s.loops[d] == Waiting)
  }

  /** If the task replays a setup, its entity's loop waits for it. */
  predicate Attached(s: System, k: CallId) {
    k in s.tasks &&
    var t := s.tasks[k]; t.replay ==> t.owner in s.loops && s.loops[t.owner] == Replaying(k)
  }

  lemma EndTaskKeepsWaits(s: System, k: CallId)
    requires Attached(s, k)
    ensures SameWaits(s, FailTask(s, k)) && SameWaits(s, FinishTask(s, k))
  {
  }

  lemma IssueCallKeepsWaits(s: System, k: CallId)
    requires Attached(s, k) && R.Enabled(s.client, R.CallStart(k))
    ensures SameWaits(s, IssueCall(s, k))
  {
    EndTaskKeepsWaits(s.(client := R.Step(s.client, R.CallStart(k))), k);
  }

  lemma EnterKeepsWaits(s: System, k: CallId, stage: Stage)
    requires Attached(s, k) && R.Enabled(s.client, R.CallStart(k))
    ensures SameWaits(s, Enter(s, k, stage))
  {
    IssueCallKeepsWaits(s.(tasks := s.tasks[k := s.tasks[k].(stage := stage)]), k);
  }

  lemma AnnounceKeepsWaits(s: System, k: CallId)
    requires Attached(s, k) && s.tasks[k].owner in s.plans && R.Enabled(s.client, R.CallStart(k))
    ensures SameWaits(s, Announce(s, k))
  {
    if s.plans[s.tasks[k].owner].announces {
      EnterKeepsWaits(s, k, Announcing);
    } else {
      EndTaskKeepsWaits(s, k);
    }
  }

  lemma ProceedKeepsWaits(s: System, k: CallId)
    requires Attached(s, k) && ActiveTask(s, k) && R.Enabled(s.client, R.CallStart(k))
    ensures SameWaits(s, Proceed(s, k))
  {
    var t := s.tasks[k];
    var topics := s.plans[t.owner].topics;
    match t.stage
    case Discovering =>
      if topics == [] {
        AnnounceKeepsWaits(s, k);
      } else {
        EnterKeepsWaits(s, k, Subscribing);
      }
    case Subscribing => AnnounceKeepsWaits(s.(mux := M.Step(s.mux, M.SubscribeOk(t.owner, topics))), k);
    case Announcing => EndTaskKeepsWaits(s, k);
  }

  lemma TaskStepKeepsWaits(s: System, e: Event)
    requires Enabled(s, e) && Tasks(s) && (e.TaskWake? || e.TaskDone?)
    ensures SameWaits(s, Step(s, e))
  {
    var s' := s.(client := R.Step(s.client, if e.TaskWake? then R.CallResume(e.k) else R.CallDone(e.k, e.ec)));
    if e.TaskDone? && e.ec == NoError {
      ProceedKeepsWaits(s', e.k);
    } else {
      EndTaskKeepsWaits(s', e.k);
    }
  }

  /** A result moves no loop but that of the entity that got it. */
  lemma GotKeepsOtherWaits(s: System, c: ClientId, r: RecvResult, k: CallId, d: ClientId)
    requires FreshCall(s, k) && d != c && d in s.loops
    ensures d in Got(s, c, r, k).loops && Got(s, c, r, k).loops[d] == s.loops[d]
  {
  }

  lemma LoopStepKeepsOtherWaits(s: System, e: Event, d: ClientId)
    requires Enabled(s, e) && (e.LoopRecv? || e.LoopWake?) && d != e.c && d in s.loops
    ensures d in Step(s, e).loops && Step(s, e).loops[d] == s.loops[d]
  {
    var s' := s.(mux := M.Step(s.mux, if e.LoopRecv? then M.RecvEnter(e.c) else M.RecvResume(e.c)));
    var q := s.mux.states[e.c].q;
    if e.LoopWake? || q.queue != [] {
      GotKeepsOtherWaits(s', e.c, if e.LoopWake? then RecvQueue.Resumed(q) else q.queue[0], e.k, d);
    }
  }

  lemma OtherStepKeepsWaits(s: System, e: Event, d: ClientId)
    requires Enabled(s, e) && Tasks(s) && !((e.LoopRecv? || e.LoopWake?) && e.c == d)
    requires d in s.loops && !e.AddEntity?
    ensures d in Step(s, e).loops && (Step(s, e).loops[d] == Waiting <==> s.loops[d] == Waiting)
  {
    if e.TaskWake? || e.TaskDone? {
      TaskStepKeepsWaits(s, e);
    } else if e.LoopRecv? || e.LoopWake? {
      LoopStepKeepsOtherWaits(s, e, d);
    }
  }

  lemma OwnLoopStepWaits(s: System, e: Event)
    requires Enabled(s, e) && (e.LoopRecv? || e.LoopWake?)
    ensures e.c in Step(s, e).loops
    ensures Step(s, e).loops[e.c] == Waiting <==> e.LoopRecv? && s.mux.states[e.c].q.queue == []
  {
  }

  lemma OwnStepKeepsWakeSync(s: System, e: Event)
    requires M.Inv(s.mux) && Enabled(s, e) && (e.LoopRecv? || e.LoopWake?) && WakeSync(s, e.c)
    ensures WakeSync(Step(s, e), e.c)
  {
    StepMoves(s, e);
    var me := MuxEvent(s, e).value;
    OwnTakeKeepsWaiters(s.mux, me, e.c, e.LoopWake?);
    OwnLoopStepWaits(s, e);
    M.StepKeepsInv(s.mux, me);
  }

  lemma OtherStepKeepsWakeSync(s: System, e: Event, d: ClientId)
    requires M.Inv(s.mux) && Tasks(s) && Enabled(s, e) && WakeSync(s, d)
    requires !((e.LoopRecv? || e.LoopWake?) && e.c == d) && !e.AddEntity? && d in s.loops && d in s.mux.states
    ensures WakeSync(Step(s, e), d)
  {
    StepMoves(s, e);
    OtherStepKeepsWaits(s, e, d);
    if MuxEvent(s, e).Some? {
      OtherMuxStepKeepsWaiters(s.mux, MuxEvent(s, e).value, d);
      M.StepKeepsInv(s.mux, MuxEvent(s, e).value);
    }
  }

  lemma StepKeepsWakeSync(s: System, e: Event, d: ClientId)
    requires M.Inv(s.mux) && Registration(s) && Tasks(s) && Enabled(s, e) && WakeSync(s, d)
    ensures WakeSync(Step(s, e), d)
  {
    if (e.LoopRecv? || e.LoopWake?) && e.c == d {
      OwnStepKeepsWakeSync(s, e);
    } else if !e.AddEntity? && d in s.loops {
      OtherStepKeepsWakeSync(s, e, d);
    } else if !e.AddEntity? {
      StepAddsNoClient(s, e, d);
    }
  }

  lemma OnlyMakeClientAdds(mux: M.Mux, e: M.Event, d: ClientId)
    requires M.Inv(mux) && M.Enabled(mux, e) && !e.MakeClient? && d !in mux.states
    ensures d !in M.Step(mux, e).states
  {
    if e.Result? {
      M.DispatchExactlyOnce(mux.states, mux.clients, e.r);
    }
  }

  lemma StepAddsNoClient(s: System, e: Event, d: ClientId)
    requires M.Inv(s.mux) && Enabled(s, e) && d !in s.mux.states && !e.AddEntity?
    ensures d !in Step(s, e).mux.states
  {
    StepMoves(s, e);
    if MuxEvent(s, e).Some? {
      OnlyMakeClientAdds(s.mux, MuxEvent(s, e).value, d);
    }
  }

  lemma {:induction false} RunKeepsWakeSync(m: nat, es: seq<Event>, d: ClientId)
    requires ValidRun(Initial(m), es)
    ensures WakeSync(Run(Initial(m), es), d)
  {
    if es != [] {
      var init := es[..|es| - 1];
      RunKeepsWakeSync(m, init, d);
      RunKeepsInv(m, init);
      StepKeepsWakeSync(Run(Initial(m), init), es[|es| - 1], d);
    }
  }

  /** An entity whose wait was cancelled always finds a result: the error for an empty wakeup is never
      reported to it. */
  lemma EntityNeverWakesEmpty(s: System, m: nat, c: ClientId, k: CallId)
    requires Reachable(s, m) && Enabled(s, LoopWake(c, k))
    ensures s.mux.states[c].q.queue != []
    ensures RecvQueue.Resumed(s.mux.states[c].q) == s.mux.states[c].q.queue[0]
  {
    var es :| ValidRun(Initial(m), es) && s == Run(Initial(m), es);
    RunKeepsWakeSync(m, es, c);
  }
}
