/** The restoration invariant of the composed system, and the proof that every step keeps it. */
module Restoration {
  import opened Mqtt
  import opened Errors
  import opened TopicList
  import opened System
  import M = Multiplexer
  import R = Reconnect
  import RecvQueue

  // ---------- The restoration invariant ----------

  /** The entity is replaying its setup, up to and including the subscribe. */
  predicate ReplaysSubscribe(s: System, c: ClientId) {
    && c in s.loops && s.loops[c].Replaying?
    && s.loops[c].task in s.tasks && s.tasks[s.loops[c].task].stage != Announcing
  }

  predicate ResetQueued(s: System, c: ClientId) {
    c in s.mux.states && Failed(SessionReset) in s.mux.states[c].q.queue
  }

  predicate TopicsHeld(s: System, c: ClientId) {
    c in s.mux.states && NameSet(s.mux.states[c].topics) <= s.session
  }

  /** Nothing the entity registered is lost: the broker holds it, or a session reset waits in the
      queue, or there is no link. */
  predicate Settled(s: System, c: ClientId) {
    TopicsHeld(s, c) || ResetQueued(s, c) || !s.linkUp
  }

  /** A live registered entity whose receive loop has not ended. */
  predicate Running(s: System, c: ClientId) {
    c in s.mux.clients && M.Live(s.mux, c) && c in s.loops && s.loops[c] != Ended
  }

  ghost predicate Covered(s: System, c: ClientId) {
    Running(s, c) ==> Settled(s, c) || ReplaysSubscribe(s, c)
  }

  ghost predicate Restored(s: System) {
    forall c :: Covered(s, c)
  }

  /** Registered topics come from the entity's own plan, and keep a usable entity registered. */
  ghost predicate Registration(s: System) {
    && s.plans.Keys == s.loops.Keys == s.mux.states.Keys
    && (forall c :: c in s.mux.states ==> NameSet(s.mux.states[c].topics) <= NameSet(s.plans[c].topics))
    && (forall c :: Active(s, c) && s.mux.states[c].topics != [] ==> c in s.mux.clients)
    && (forall c :: c in s.closed ==> c !in s.mux.clients)
  }

  ghost predicate Tasks(s: System) {
    && (forall k :: k in s.tasks ==> s.tasks[k].owner in s.plans)
    && (forall c :: c in s.loops && s.loops[c].Replaying? ==>
          s.loops[c].task in s.tasks && s.tasks[s.loops[c].task].owner == c && s.tasks[s.loops[c].task].replay)
    && (forall k :: k in s.tasks && s.tasks[k].replay ==>
          s.tasks[k].owner in s.loops && s.loops[s.tasks[k].owner] == Replaying(k))
  }

  ghost predicate Grants(s: System) {
    forall k :: k in s.tasks && s.tasks[k].grant.Some? && s.tasks[k].owner in s.plans ==>
      && s.tasks[k].grant.value <= s.epoch
      && (s.tasks[k].grant.value == s.epoch && s.linkUp ==> NameSet(s.plans[s.tasks[k].owner].topics) <= s.session)
  }

  ghost predicate Link(s: System) {
    && (s.linkUp ==> s.client.conn == R.Connected)
    && (s.epoch == 0 ==> s.client.conn == R.Closed && forall c :: c in s.mux.states ==> s.mux.states[c].topics == [])
    && (s.epoch == 0 ==> forall k :: k in s.tasks ==> s.tasks[k].grant == None)
  }

  /** Everything but the restoration itself. */
  ghost predicate Core(s: System) {
    Registration(s) && Tasks(s) && Grants(s) && Link(s)
  }

  ghost predicate Inv(s: System) {
    Core(s) && Restored(s)
  }

  ghost predicate RestoredBut(s: System, c: ClientId) {
    forall d :: d != c ==> Covered(s, d)
  }

  // ---------- Topics ----------

  lemma {:induction false} UpsertAllNameSet(ts: seq<TopicSubopts>, added: seq<TopicSubopts>)
    ensures NameSet(UpsertAll(ts, added)) == NameSet(ts) + NameSet(added)
  {
    if added != [] {
      var init, last := added[..|added| - 1], added[|added| - 1];
      UpsertAllNameSet(ts, init);
      UpsertNameSet(UpsertAll(ts, init), last);
      assert added == init + [last];
      assert NameSet(added) == NameSet(init) + {last.topic};
    }
  }

  lemma UpsertNameSet(ts: seq<TopicSubopts>, t: TopicSubopts)
    ensures NameSet(Upsert(ts, t)) == NameSet(ts) + {t.topic}
  {
    var i, us := IndexOf(ts, t.topic), Upsert(ts, t);
    assert us[i] == t;
    forall name | name in NameSet(ts) ensures name in NameSet(us) {
      var x :| x in ts && x.topic == name;
      var j :| 0 <= j < |ts| && ts[j] == x;
      assert us[j] == if j == i then t else x;
      assert us[j] in us;
    }
    assert forall x :: x in us ==> x in ts || x == t;
  }

  // ---------- Every step keeps the invariant ----------

  lemma EndTaskKeepsCore(s: System, k: CallId, loop: Loop)
    requires Core(s) && k in s.tasks && !loop.Replaying?
    ensures var t := s.tasks[k];
            Core(s.(tasks := s.tasks - {k}, loops := if t.replay then s.loops[t.owner := loop] else s.loops))
  {
  }

  lemma FailTaskKeeps(s: System, k: CallId)
    requires Core(s) && k in s.tasks
    requires if s.tasks[k].replay then RestoredBut(s, s.tasks[k].owner) else Restored(s)
    ensures Inv(FailTask(s, k))
  {
    var s' := FailTask(s, k);
    EndTaskKeepsCore(s, k, Ended);
    forall c ensures Covered(s', c) {
      assert !(s.tasks[k].replay && c == s.tasks[k].owner) ==> Covered(s, c);
    }
  }

  lemma FinishTaskKeeps(s: System, k: CallId)
    requires Inv(s) && k in s.tasks
    requires s.tasks[k].replay ==> Settled(s, s.tasks[k].owner)
    ensures Inv(FinishTask(s, k))
  {
    var s' := FinishTask(s, k);
    EndTaskKeepsCore(s, k, Calling);
    forall c ensures Covered(s', c) {
      assert Covered(s, c);
    }
  }

  lemma CallStepKeeps(s: System, e: R.Event)
    requires Inv(s) && R.Enabled(s.client, e) && (e.CallStart? || e.CallResume? || e.CallDone?)
    ensures Inv(s.(client := R.Step(s.client, e)))
  {
    var s' := s.(client := R.Step(s.client, e));
    forall c ensures Covered(s', c) {
      assert Covered(s, c);
    }
  }

  lemma IssueCallKeeps(s: System, k: CallId)
    requires Inv(s) && k in s.tasks && R.Enabled(s.client, R.CallStart(k))
    ensures Inv(IssueCall(s, k))
  {
    CallStepKeeps(s, R.CallStart(k));
    var s' := s.(client := R.Step(s.client, R.CallStart(k)));
    if s'.client.calls[k].Finished? {
      FailTaskKeeps(s', k);
    }
  }

  lemma StageMoveKeepsCore(s: System, k: CallId, stage: Stage)
    requires Core(s) && k in s.tasks
    ensures Core(s.(tasks := s.tasks[k := s.tasks[k].(stage := stage)]))
  {
  }

  lemma StageMoveKeeps(s: System, k: CallId, stage: Stage)
    requires Inv(s) && k in s.tasks
    requires s.tasks[k].replay && stage == Announcing ==> Settled(s, s.tasks[k].owner)
    ensures Inv(s.(tasks := s.tasks[k := s.tasks[k].(stage := stage)]))
  {
    var s' := s.(tasks := s.tasks[k := s.tasks[k].(stage := stage)]);
    StageMoveKeepsCore(s, k, stage);
    forall c ensures Covered(s', c) {
      assert Covered(s, c);
    }
  }

  lemma EnterKeeps(s: System, k: CallId, stage: Stage)
    requires Inv(s) && k in s.tasks && R.Enabled(s.client, R.CallStart(k))
    requires s.tasks[k].replay && stage == Announcing ==> Settled(s, s.tasks[k].owner)
    ensures Inv(Enter(s, k, stage))
  {
    StageMoveKeeps(s, k, stage);
    IssueCallKeeps(s.(tasks := s.tasks[k := s.tasks[k].(stage := stage)]), k);
  }

  lemma AnnounceKeeps(s: System, k: CallId)
    requires Inv(s) && k in s.tasks && s.tasks[k].owner in s.plans && R.Enabled(s.client, R.CallStart(k))
    requires s.tasks[k].replay ==> Settled(s, s.tasks[k].owner)
    ensures Inv(Announce(s, k))
  {
    if s.plans[s.tasks[k].owner].announces {
      EnterKeeps(s, k, Announcing);
    } else {
      FinishTaskKeeps(s, k);
    }
  }

  /** What a granted subscribe of `c` does to the multiplexer. */
  ghost predicate Registers(mux: M.Mux, c: ClientId, topics: seq<TopicSubopts>, mux': M.Mux) {
    && M.Live(mux, c)
    && mux'.clients == M.Register(mux.clients, c)
    && mux'.states == mux.states[c := mux.states[c].(topics := UpsertAll(mux.states[c].topics, topics))]
  }

  lemma SubscribeKeepsCore(s: System, c: ClientId, mux: M.Mux)
    requires Core(s) && c in s.plans && c !in s.closed && s.epoch > 0
    requires Registers(s.mux, c, s.plans[c].topics, mux)
    ensures Core(s.(mux := mux))
  {
    UpsertAllNameSet(s.mux.states[c].topics, s.plans[c].topics);
  }

  lemma SubscribeSettles(s: System, c: ClientId, mux: M.Mux)
    requires Inv(s) && Active(s, c) && Registers(s.mux, c, s.plans[c].topics, mux)
    requires s.linkUp ==> NameSet(s.plans[c].topics) <= s.session
    ensures Settled(s.(mux := mux), c) && forall d :: Covered(s.(mux := mux), d)
  {
    UpsertAllNameSet(s.mux.states[c].topics, s.plans[c].topics);
    forall d ensures Covered(s.(mux := mux), d) {
      assert Covered(s, d);
    }
  }

  /** A granted subscribe leaves its entity settled. */
  lemma SubscribeKeeps(s: System, k: CallId, mux: M.Mux)
    requires Inv(s) && ActiveTask(s, k) && s.tasks[k].grant == Some(s.epoch)
    requires Registers(s.mux, s.tasks[k].owner, s.plans[s.tasks[k].owner].topics, mux)
    ensures Inv(s.(mux := mux)) && Settled(s.(mux := mux), s.tasks[k].owner)
  {
    SubscribeKeepsCore(s, s.tasks[k].owner, mux);
    SubscribeSettles(s, s.tasks[k].owner, mux);
  }

  lemma ProceedKeeps(s: System, k: CallId)
    requires Inv(s) && ActiveTask(s, k) && R.Enabled(s.client, R.CallStart(k))
    requires s.tasks[k].stage == Subscribing ==> s.tasks[k].grant == Some(s.epoch)
    ensures Inv(Proceed(s, k))
  {
    var t := s.tasks[k];
    match t.stage
    case Discovering =>
      if s.plans[t.owner].topics == [] {
        assert NameSet([]) == {};
        AnnounceKeeps(s, k);
      } else {
        EnterKeeps(s, k, Subscribing);
      }
    case Subscribing =>
      var mux := M.Step(s.mux, M.SubscribeOk(t.owner, s.plans[t.owner].topics));
      SubscribeKeeps(s, k, mux);
      AnnounceKeeps(s.(mux := mux), k);
    case Announcing =>
      if t.replay {
        AnnouncingIsSettled(s, k);
      }
      FinishTaskKeeps(s, k);
  }

  lemma AnnouncingIsSettled(s: System, k: CallId)
    requires Inv(s) && ActiveTask(s, k) && s.tasks[k].replay && s.tasks[k].stage == Announcing
    ensures Settled(s, s.tasks[k].owner)
  {
    var c := s.tasks[k].owner;
    assert Covered(s, c) && !ReplaysSubscribe(s, c);
    if c !in s.mux.clients {
      assert NameSet([]) == {};
    }
  }

  lemma NewTaskKeepsTasks(s: System, c: ClientId, k: CallId)
    requires Tasks(s) && c in s.plans && FreshCall(s, k)
    ensures Tasks(s.(tasks := s.tasks[k := Task(c, false, Discovering, None)]))
  {
  }

  lemma NewTaskKeepsCore(s: System, c: ClientId, k: CallId)
    requires Core(s) && c in s.plans && FreshCall(s, k)
    ensures Core(s.(tasks := s.tasks[k := Task(c, false, Discovering, None)]))
  {
    NewTaskKeepsTasks(s, c, k);
  }

  lemma NewTaskKeeps(s: System, c: ClientId, k: CallId)
    requires Inv(s) && c in s.plans && FreshCall(s, k)
    ensures Inv(NewTask(s, c, k, false))
  {
    var s' := s.(tasks := s.tasks[k := Task(c, false, Discovering, None)]);
    NewTaskKeepsCore(s, c, k);
    forall d ensures Covered(s', d) {
      assert Covered(s, d);
    }
    IssueCallKeeps(s', k);
  }

  lemma ReplayTaskKeepsTasks(s: System, c: ClientId, k: CallId)
    requires Tasks(s) && c in s.loops && c in s.plans && !s.loops[c].Replaying? && FreshCall(s, k)
    ensures Tasks(s.(loops := s.loops[c := Replaying(k)], tasks := s.tasks[k := Task(c, true, Discovering, None)]))
  {
  }

  lemma ReplayTaskKeepsCore(s: System, c: ClientId, k: CallId)
    requires Core(s) && c in s.loops && !s.loops[c].Replaying? && FreshCall(s, k)
    ensures Core(s.(loops := s.loops[c := Replaying(k)], tasks := s.tasks[k := Task(c, true, Discovering, None)]))
  {
    ReplayTaskKeepsTasks(s, c, k);
  }

  lemma NewReplayKeeps(s: System, c: ClientId, k: CallId)
    requires Core(s) && RestoredBut(s, c) && c in s.loops && !s.loops[c].Replaying? && FreshCall(s, k)
    ensures Inv(NewTask(s.(loops := s.loops[c := Replaying(k)]), c, k, true))
  {
    var s' := s.(loops := s.loops[c := Replaying(k)], tasks := s.tasks[k := Task(c, true, Discovering, None)]);
    ReplayTaskKeepsCore(s, c, k);
    forall d ensures Covered(s', d) {
      assert d != c ==> Covered(s, d);
    }
    IssueCallKeeps(s', k);
  }

  lemma LoopMoveKeepsCore(s: System, c: ClientId, loop: Loop)
    requires Core(s) && c in s.loops && !s.loops[c].Replaying? && !loop.Replaying?
    ensures Core(s.(loops := s.loops[c := loop]))
  {
  }

  /** A settled entity may go anywhere but into a replay. */
  lemma LoopMoveKeeps(s: System, c: ClientId, loop: Loop)
    requires Core(s) && RestoredBut(s, c) && Settled(s, c)
    requires c in s.loops && !s.loops[c].Replaying? && !loop.Replaying?
    ensures Inv(s.(loops := s.loops[c := loop]))
  {
    var s' := s.(loops := s.loops[c := loop]);
    LoopMoveKeepsCore(s, c, loop);
    forall d ensures Covered(s', d) {
      assert d != c ==> Covered(s, d);
    }
  }

  /** The receive loop of `c` took the result `r`: every other entity is as before, and `c` is settled
      unless the result is what it must react to. */
  lemma GotKeeps(s: System, c: ClientId, r: RecvResult, k: CallId)
    requires Core(s) && RestoredBut(s, c) && c in s.loops && !s.loops[c].Replaying? && FreshCall(s, k)
    requires r != Failed(SessionReset) ==> Settled(s, c)
    ensures Inv(Got(s, c, r, k))
  {
    if r == Failed(SessionReset) {
      NewReplayKeeps(s, c, k);
    } else {
      LoopMoveKeeps(s, c, if Terminal(r) then Ended else Calling);
    }
  }

  /** Before it takes a result, an entity that is not replaying is settled. */
  lemma IdleIsSettled(s: System, c: ClientId)
    requires Inv(s) && Active(s, c) && s.loops[c] in {NotStarted, Calling, Waiting}
    ensures Settled(s, c)
  {
    assert Covered(s, c);
    if c !in s.mux.clients {
      assert NameSet([]) == {};
    }
  }

  /** A multiplexer change that creates no client, revives none and changes no topic list. */
  ghost predicate SameTopics(mux: M.Mux, mux': M.Mux) {
    && mux'.states.Keys == mux.states.Keys
    && forall c :: c in mux.states ==>
         mux'.states[c].topics == mux.states[c].topics && (mux'.states[c].alive ==> mux.states[c].alive)
  }

  lemma SwapMuxKeepsCore(s: System, mux: M.Mux)
    requires Core(s) && SameTopics(s.mux, mux)
    requires forall c :: c in s.mux.clients && M.Live(mux, c) ==> c in mux.clients
    requires forall c :: c in mux.clients ==> c !in s.closed
    ensures Core(s.(mux := mux))
  {
  }

  lemma SwapMuxKeepsCovered(s: System, mux: M.Mux, c: ClientId)
    requires Covered(s, c) && SameTopics(s.mux, mux)
    requires c in mux.clients ==> c in s.mux.clients
    requires c in mux.states && Failed(SessionReset) in s.mux.states[c].q.queue ==>
      Failed(SessionReset) in mux.states[c].q.queue
    ensures Covered(s.(mux := mux), c)
  {
  }

  /** `c` took the head of its queue, if there was one. */
  ghost predicate Takes(mux: M.Mux, c: ClientId, mux': M.Mux) {
    && SameTopics(mux, mux') && mux'.clients in {mux.clients, M.Register(mux.clients, c)}
    && (forall d :: d in mux.states ==> d == c || mux'.states[d] == mux.states[d])
    && c in mux.states
    && var q := mux.states[c].q.queue; mux'.states[c].q.queue == if q == [] then [] else q[1..]
  }

  lemma TakeKeepsOthers(s: System, c: ClientId, mux: M.Mux)
    requires Restored(s) && Takes(s.mux, c, mux)
    ensures RestoredBut(s.(mux := mux), c)
  {
    forall d | d != c ensures Covered(s.(mux := mux), d) {
      assert Covered(s, d);
      if d in s.mux.states {
        SwapMuxKeepsCovered(s, mux, d);
      }
    }
  }

  lemma TakeKeepsSettled(s: System, c: ClientId, mux: M.Mux)
    requires Settled(s, c) && Takes(s.mux, c, mux)
    requires s.mux.states[c].q.queue == [] || s.mux.states[c].q.queue[0] != Failed(SessionReset)
    ensures Settled(s.(mux := mux), c)
  {
    var q := s.mux.states[c].q.queue;
    assert q != [] ==> q == [q[0]] + q[1..];
  }

  /** Taking the head of a queue leaves everyone else as they were, and an entity settled unless the
      head was a session reset. */
  lemma TakeKeeps(s: System, c: ClientId, mux: M.Mux)
    requires Inv(s) && Active(s, c) && s.loops[c] in {Calling, Waiting} && Takes(s.mux, c, mux)
    ensures Core(s.(mux := mux)) && RestoredBut(s.(mux := mux), c)
    ensures s.mux.states[c].q.queue == [] || s.mux.states[c].q.queue[0] != Failed(SessionReset) ==>
      Settled(s.(mux := mux), c)
  {
    IdleIsSettled(s, c);
    SwapMuxKeepsCore(s, mux);
    TakeKeepsOthers(s, c, mux);
    if s.mux.states[c].q.queue == [] || s.mux.states[c].q.queue[0] != Failed(SessionReset) {
      TakeKeepsSettled(s, c, mux);
    }
  }

  lemma LoopRecvKeeps(s: System, c: ClientId, k: CallId)
    requires Inv(s) && Enabled(s, LoopRecv(c, k))
    ensures Inv(Step(s, LoopRecv(c, k)))
  {
    var s' := s.(mux := M.Step(s.mux, M.RecvEnter(c)));
    var q := s.mux.states[c].q.queue;
    TakeKeeps(s, c, s'.mux);
    if q == [] {
      LoopMoveKeeps(s', c, Waiting);
    } else {
      GotKeeps(s', c, q[0], k);
    }
  }

  lemma LoopWakeKeeps(s: System, c: ClientId, k: CallId)
    requires Inv(s) && Enabled(s, LoopWake(c, k))
    ensures Inv(Step(s, LoopWake(c, k)))
  {
    var mux := M.Step(s.mux, M.RecvResume(c));
    TakeKeeps(s, c, mux);
    GotKeeps(s.(mux := mux), c, RecvQueue.Resumed(s.mux.states[c].q), k);
  }

  /** A result reaches the queues: queues only grow, and a session reset reaches every entity. */
  ghost predicate QueuesGrow(mux: M.Mux, r: RecvResult, mux': M.Mux) {
    && SameTopics(mux, mux') && mux'.clients == mux.clients
    && (forall c, x :: c in mux.states && x in mux.states[c].q.queue ==> x in mux'.states[c].q.queue)
    && (r.Failed? ==> forall c :: M.LiveRegistered(mux, c) ==> r in mux'.states[c].q.queue)
  }

  lemma DispatchGrowsQueues(mux: M.Mux, r: RecvResult)
    requires M.Inv(mux) && mux.pump == M.Receiving
    ensures QueuesGrow(mux, r, M.Step(mux, M.Result(r)))
  {
    M.DispatchExactlyOnce(mux.states, mux.clients, r);
  }

  lemma DispatchKeeps(s: System, r: RecvResult, mux: M.Mux)
    requires Core(s) && QueuesGrow(s.mux, r, mux)
    requires Restored(s) || r == Failed(SessionReset)
    ensures Inv(s.(mux := mux))
  {
    SwapMuxKeepsCore(s, mux);
    forall c ensures Covered(s.(mux := mux), c) {
      if r != Failed(SessionReset) && c in s.mux.states {
        assert Covered(s, c);
        SwapMuxKeepsCovered(s, mux, c);
      } else if M.LiveRegistered(s.mux, c) {
        assert r in mux.states[c].q.queue;
      }
    }
  }

  lemma ForwardKeeps(s: System)
    requires M.Inv(s.mux) && Core(s) && s.mux.pump == M.Receiving && PUMP in s.client.recvs
    requires Restored(s) || (s.client.recvs[PUMP].Returned? && s.client.recvs[PUMP].result == Failed(SessionReset))
    ensures Inv(Forward(s))
  {
    if s.client.recvs[PUMP].Returned? {
      var r := s.client.recvs[PUMP].result;
      DispatchGrowsQueues(s.mux, r);
      DispatchKeeps(s, r, M.Step(s.mux, M.Result(r)));
    }
  }

  /** The client's part of a pump step, with what the step says about the link. */
  lemma LinkStepKeeps(s: System, client: R.Client, linkUp: bool)
    requires Inv(s)
    requires linkUp ==> s.linkUp && client.conn == R.Connected
    requires s.epoch == 0 ==> client.conn == R.Closed
    ensures Inv(s.(client := client, linkUp := linkUp))
  {
    var s' := s.(client := client, linkUp := linkUp);
    forall c ensures Covered(s', c) {
      assert Covered(s, c);
    }
  }

  lemma NewSessionKeepsCore(s: System, client: R.Client)
    requires Core(s) && client.conn == R.Connected
    ensures Core(s.(client := client, linkUp := true, epoch := s.epoch + 1, session := {}))
  {
  }

  /** What a pump step does to the connection state. */
  ghost predicate PumpMoves(c: R.Client, recv: R.Event, c': R.Client) {
    && PUMP in c'.recvs
    && (recv == R.StartDone(PUMP, NoError) ==>
          && c'.conn == R.Connected
          && c'.recvs[PUMP].Returned? && c'.recvs[PUMP].result == Failed(SessionReset))
    && (recv != R.StartDone(PUMP, NoError) ==>
          && (c.conn == R.Closed ==> c'.conn == R.Closed)
          && (!recv.TransportBroken? && c.conn == R.Connected ==> c'.conn == R.Connected))
  }

  lemma ClientPumpStep(c: R.Client, recv: R.Event)
    requires R.Inv(c) && R.Enabled(c, recv) && PumpEvent(recv)
    ensures PumpMoves(c, recv, R.Step(c, recv))
  {
    if recv.SleepOver? || recv.HandshakeDone? || recv.StartDone? {
      assert R.InLoop(c, PUMP);
    }
  }

  lemma QuietPumpStepKeeps(s: System, client: R.Client, linkUp: bool)
    requires M.Inv(s.mux) && Inv(s) && s.mux.pump == M.Receiving && PUMP in client.recvs
    requires linkUp ==> s.linkUp && client.conn == R.Connected
    requires s.epoch == 0 ==> client.conn == R.Closed
    ensures Inv(Forward(s.(client := client, linkUp := linkUp)))
  {
    LinkStepKeeps(s, client, linkUp);
    ForwardKeeps(s.(client := client, linkUp := linkUp));
  }

  lemma ReconnectedKeeps(s: System, client: R.Client)
    requires M.Inv(s.mux) && Inv(s) && s.mux.pump == M.Receiving && client.conn == R.Connected
    requires PUMP in client.recvs && client.recvs[PUMP].Returned? && client.recvs[PUMP].result == Failed(SessionReset)
    ensures Inv(Forward(s.(client := client, linkUp := true, epoch := s.epoch + 1, session := {})))
  {
    NewSessionKeepsCore(s, client);
    ForwardKeeps(s.(client := client, linkUp := true, epoch := s.epoch + 1, session := {}));
  }

  lemma PumpStepKeeps(s: System, recv: R.Event, client: R.Client)
    requires M.Inv(s.mux) && Inv(s) && s.mux.pump == M.Receiving && PumpMoves(s.client, recv, client)
    ensures Inv(AfterPump(s, recv, client))
  {
    if recv == R.StartDone(PUMP, NoError) {
      ReconnectedKeeps(s, client);
    } else {
      QuietPumpStepKeeps(s, client, s.linkUp && !recv.TransportBroken?);
    }
  }

  lemma TaskStepKeeps(s: System, e: Event)
    requires Inv(s) && Enabled(s, e) && (e.TaskWake? || e.TaskDone?)
    ensures Inv(Step(s, e))
  {
    var call := if e.TaskWake? then R.CallResume(e.k) else R.CallDone(e.k, e.ec);
    CallStepKeeps(s, call);
    var s' := s.(client := R.Step(s.client, call));
    if e.TaskDone? && e.ec == NoError {
      ProceedKeeps(s', e.k);
    } else if e.TaskDone? || s'.client.calls[e.k].Finished? {
      FailTaskKeeps(s', e.k);
    }
  }

  lemma BrokerGrantsKeeps(s: System, k: CallId)
    requires Inv(s) && Enabled(s, BrokerGrants(k))
    ensures Inv(Step(s, BrokerGrants(k)))
  {
    var s' := Step(s, BrokerGrants(k));
    forall c ensures Covered(s', c) {
      assert Covered(s, c);
    }
  }

  lemma ConnectKeeps(s: System, ec: RawError)
    requires Inv(s) && Enabled(s, Connect(ec))
    ensures Inv(Step(s, Connect(ec)))
  {
    var s' := Step(s, Connect(ec));
    if ec == NoError {
      NewSessionKeepsCore(s, s'.client);
      assert NameSet([]) == {};
    }
    forall c ensures Covered(s', c) {
      assert Covered(s, c);
    }
  }

  lemma ForgetKeeps(s: System, session: set<string>)
    requires Inv(s) && !s.linkUp
    ensures Inv(s.(session := session))
  {
    forall c ensures Covered(s.(session := session), c) {
      assert Covered(s, c);
    }
  }

  /** Steps of the link, the broker and the application that touch neither queues nor tasks. */
  lemma EnvironmentKeeps(s: System, e: Event)
    requires Inv(s) && Enabled(s, e)
    requires e.Close? || e.LinkDrop? || e.BrokerForgets? || e.BeginLoop?
    ensures Inv(Step(s, e))
  {
    match e
    case Close => LinkStepKeeps(s, R.Step(s.client, R.CloseDone), false);
    case LinkDrop => LinkStepKeeps(s, s.client, false);
    case BrokerForgets(kept) => ForgetKeeps(s, s.session * kept);
    case BeginLoop(c) =>
      IdleIsSettled(s, c);
      LoopMoveKeeps(s, c, Calling);
  }

  function WithEntity(s: System, c: ClientId, plan: Plan): System {
    s.(mux := s.mux.(states := s.mux.states[c := M.FRESH]), plans := s.plans[c := plan], loops := s.loops[c := NotStarted])
  }

  lemma AddEntityKeepsRegistration(s: System, c: ClientId, plan: Plan)
    requires Registration(s) && c !in s.mux.states
    ensures Registration(WithEntity(s, c, plan))
  {
    assert NameSet([]) == {};
  }

  lemma AddEntityKeepsTasks(s: System, c: ClientId, plan: Plan)
    requires Registration(s) && Tasks(s) && Grants(s) && Link(s) && c !in s.mux.states
    ensures var s' := WithEntity(s, c, plan); Tasks(s') && Grants(s') && Link(s')
  {
    assert forall k :: k in s.tasks ==> s.tasks[k].owner != c;
  }

  /** A new client starts with no topics, no queue and no registration. */
  lemma AddEntityKeeps(s: System, c: ClientId, plan: Plan)
    requires Inv(s) && c !in s.mux.states && c !in s.mux.clients
    ensures Inv(WithEntity(s, c, plan))
  {
    AddEntityKeepsRegistration(s, c, plan);
    AddEntityKeepsTasks(s, c, plan);
    forall d ensures Covered(WithEntity(s, c, plan), d) {
      assert Covered(s, d);
    }
  }

  /** The same clients stay registered, except some that are closed or no longer alive. */
  lemma FewerClientsKeep(s: System, clients: seq<ClientId>, closed: set<ClientId>)
    requires Inv(s) && s.closed <= closed
    requires forall c :: c in clients ==> c in s.mux.clients && c !in closed
    requires forall c :: c in s.mux.clients && M.Live(s.mux, c) && c !in closed ==> c in clients
    ensures Inv(s.(mux := s.mux.(clients := clients), closed := closed))
  {
    var s' := s.(mux := s.mux.(clients := clients), closed := closed);
    forall c ensures Covered(s', c) {
      assert Covered(s, c);
    }
  }

  lemma DetachKeeps(s: System, c: ClientId)
    requires Inv(s) && Enabled(s, Detach(c))
    ensures Inv(Step(s, Detach(c)))
  {
    M.FilterKeeps(s.mux.clients, (d: ClientId) => d != c);
    FewerClientsKeep(s, M.RemoveClient(s.mux.clients, c), s.closed + {c});
  }

  lemma PumpBeginKeeps(s: System, client: R.Client)
    requires Inv(s) && client.conn == s.client.conn
    ensures Inv(s.(mux := s.mux.(clients := M.RemoveExpired(s.mux), pump := M.Receiving), client := client))
  {
    M.FilterKeeps(s.mux.clients, (d: ClientId) => M.Live(s.mux, d));
    LinkStepKeeps(s, client, s.linkUp);
    var p := s.(client := client, linkUp := s.linkUp);
    var mux := s.mux.(clients := M.RemoveExpired(s.mux), pump := M.Receiving);
    SwapMuxKeepsCore(p, mux);
    forall c ensures Covered(p.(mux := mux), c) {
      assert Covered(p, c);
      if c in s.mux.states {
        SwapMuxKeepsCovered(p, mux, c);
      }
    }
    assert p.(mux := mux) == s.(mux := mux, client := client);
  }

  lemma ExpireKeeps(s: System, c: ClientId)
    requires Inv(s) && c in s.mux.states
    ensures Inv(s.(mux := s.mux.(states := s.mux.states[c := s.mux.states[c].(alive := false)])))
  {
    var mux := s.mux.(states := s.mux.states[c := s.mux.states[c].(alive := false)]);
    SwapMuxKeepsCore(s, mux);
    forall d ensures Covered(s.(mux := mux), d) {
      assert Covered(s, d);
      if d in s.mux.states {
        SwapMuxKeepsCovered(s, mux, d);
      }
    }
  }

  predicate EntityEvent(e: Event) {
    e.BeginSetup? || e.LoopRecv? || e.LoopWake? || e.TaskWake? || e.TaskDone? || e.OtherCall? || e.BrokerGrants?
  }

  lemma EntityStepKeeps(s: System, e: Event)
    requires Inv(s) && Enabled(s, e) && EntityEvent(e)
    ensures Inv(Step(s, e))
  {
    match e
    case LoopRecv(c, k) => LoopRecvKeeps(s, c, k);
    case LoopWake(c, k) => LoopWakeKeeps(s, c, k);
    case TaskWake(_) => TaskStepKeeps(s, e);
    case TaskDone(_, _) => TaskStepKeeps(s, e);
    case BrokerGrants(k) => BrokerGrantsKeeps(s, k);
    case BeginSetup(c, k) => NewTaskKeeps(s, c, k);
    case OtherCall(call) => CallStepKeeps(s, call);
  }

  lemma StepKeepsInv(s: System, e: Event)
    requires M.Inv(s.mux) && R.Inv(s.client) && Inv(s) && Enabled(s, e)
    ensures Inv(Step(s, e))
  {
    if EntityEvent(e) {
      EntityStepKeeps(s, e);
    } else if e.AddEntity? {
      AddEntityKeeps(s, e.c, e.plan);
    } else if e.Detach? {
      DetachKeeps(s, e.c);
    } else if e.Expire? {
      ExpireKeeps(s, e.c);
    } else if e.PumpBegin? {
      PumpBeginKeeps(s, R.Step(s.client, R.RecvStart(PUMP)));
    } else if e.PumpStep? {
      ClientPumpStep(s.client, e.recv);
      PumpStepKeeps(s, e.recv, R.Step(s.client, e.recv));
    } else if e.Connect? {
      ConnectKeeps(s, e.ec);
    } else {
      EnvironmentKeeps(s, e);
    }
  }
}
