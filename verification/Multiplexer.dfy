/** The shared connection as a transition system: one physical receive stream, many logical clients.
    Each event is one atomic step between two suspension points. */
module Multiplexer {
  import opened Mqtt
  import opened TopicList
  import RecvQueue

  type ClientId = nat

  /** State shared by a logical client's handle and its running calls. `alive` is false once the
      last owner is gone: the weak pointers to it have expired. */
  datatype Client = Client(alive: bool, topics: seq<TopicSubopts>, q: RecvQueue.Queue)

  const FRESH := Client(true, [], RecvQueue.EMPTY)

  /** Where the pump loop stands: about to prune, suspended in the physical receive, or returned. */
  datatype Pump = Pruning | Receiving | Ended

  datatype Mux = Mux(clients: seq<ClientId>, states: map<ClientId, Client>, pump: Pump)

  const INITIAL := Mux([], map[], Pruning)

  datatype Event =
    | MakeClient(c: ClientId)
    | SubscribeOk(c: ClientId, topics: seq<TopicSubopts>)
    | RecvEnter(c: ClientId)
    | RecvResume(c: ClientId)
    | Detach(c: ClientId)
    | Expire(c: ClientId)
    | Prune
    | Result(r: RecvResult)

  predicate Live(s: Mux, c: ClientId) {
    c in s.states && s.states[c].alive
  }

  /** A client expires only when no receive call holds its state; identities are never reused. */
  predicate Enabled(s: Mux, e: Event) {
    match e
    case MakeClient(c) => c !in s.states
    case SubscribeOk(c, _) => Live(s, c)
    case RecvEnter(c) => Live(s, c)
    case RecvResume(c) => Live(s, c) && s.states[c].q.woken > 0
    case Detach(c) => Live(s, c)
    case Expire(c) => Live(s, c) && s.states[c].q.waiting == s.states[c].q.woken == 0
    case Prune => s.pump == Pruning
    case Result(_) => s.pump == Receiving
  }

  ghost predicate LiveRegistered(s: Mux, c: ClientId) {
    c in s.clients && Live(s, c)
  }

  // ---------- The operations, as the code performs them ----------

  function Register(clients: seq<ClientId>, c: ClientId): seq<ClientId> {
    if c in clients then clients else clients + [c]
  }

  /** Keep the entries that satisfy the test, in order. */
  function Filter(clients: seq<ClientId>, keep: ClientId -> bool): seq<ClientId> {
    if clients == [] then []
    else
      var last := clients[|clients| - 1];
      Filter(clients[..|clients| - 1], keep) + (if keep(last) then [last] else [])
  }

  function RemoveExpired(s: Mux): seq<ClientId> {
    Filter(s.clients, (c: ClientId) => Live(s, c))
  }

  /** The detached client is alive, so entries that already expired do not compare equal to it. */
  function RemoveClient(clients: seq<ClientId>, c: ClientId): seq<ClientId> {
    Filter(clients, (d: ClientId) => d != c)
  }

  function PushCopies(q: RecvQueue.Queue, r: RecvResult, n: nat): RecvQueue.Queue {
    if n == 0 then q else RecvQueue.Push(PushCopies(q, r, n - 1), r)
  }

  /** How many copies one client entry receives: one per error, one per matching topic entry. */
  function Copies(topics: seq<TopicSubopts>, r: RecvResult): nat {
    match r
    case Failed(_) => 1
    case Received(Publish(topic, _)) => CountName(topics, topic)
    case Received(OtherPacket(_)) => 0
  }

  /** Serve one entry of the client list. */
  function Deliver(states: map<ClientId, Client>, c: ClientId, r: RecvResult): map<ClientId, Client> {
    if c in states && states[c].alive then
      states[c := states[c].(q := PushCopies(states[c].q, r, Copies(states[c].topics, r)))]
    else states
  }

  /** The dispatch loop over the client list, from left to right. */
  function Dispatch(states: map<ClientId, Client>, clients: seq<ClientId>, r: RecvResult): map<ClientId, Client> {
    if clients == [] then states
    else Deliver(Dispatch(states, clients[..|clients| - 1], r), clients[|clients| - 1], r)
  }

  function Step(s: Mux, e: Event): Mux
    requires Enabled(s, e)
  {
    match e
    case MakeClient(c) => s.(states := s.states[c := FRESH])
    case SubscribeOk(c, topics) =>
      s.(clients := Register(s.clients, c),
         states := s.states[c := s.states[c].(topics := UpsertAll(s.states[c].topics, topics))])
    case RecvEnter(c) =>
      s.(clients := Register(s.clients, c),
         states := s.states[c := s.states[c].(q := RecvQueue.Enter(s.states[c].q))])
    case RecvResume(c) => s.(states := s.states[c := s.states[c].(q := RecvQueue.Resume(s.states[c].q))])
    case Detach(c) => s.(clients := RemoveClient(s.clients, c))
    case Expire(c) => s.(states := s.states[c := s.states[c].(alive := false)])
    case Prune => s.(clients := RemoveExpired(s), pump := Receiving)
    case Result(r) =>
      s.(states := Dispatch(s.states, s.clients, r), pump := if Terminal(r) then Ended else Pruning)
  }

  ghost predicate ValidRun(es: seq<Event>)
    decreases |es|, 0
  {
    es == [] || (ValidRun(es[..|es| - 1]) && Enabled(Run(es[..|es| - 1]), es[|es| - 1]))
  }

  ghost function Run(es: seq<Event>): Mux
    requires ValidRun(es)
    decreases |es|, 1
  {
    if es == [] then INITIAL else Step(Run(es[..|es| - 1]), es[|es| - 1])
  }

  lemma ExtendRun(es: seq<Event>, e: Event)
    requires ValidRun(es) && Enabled(Run(es), e)
    ensures ValidRun(es + [e]) && Run(es + [e]) == Step(Run(es), e)
  {
    assert (es + [e])[..|es + [e]| - 1] == es;
  }

  /** What the pump loop does with these physical results. */
  function PumpEvents(rs: seq<RecvResult>): seq<Event> {
    if rs == [] then [] else PumpEvents(rs[..|rs| - 1]) + [Prune] + [Result(rs[|rs| - 1])]
  }

  // ---------- The invariant ----------

  ghost predicate NoDuplicates(clients: seq<ClientId>) {
    forall i, j :: 0 <= i < j < |clients| ==> clients[i] != clients[j]
  }

  ghost predicate Inv(s: Mux) {
    && NoDuplicates(s.clients)
    && (forall c :: c in s.clients ==> c in s.states)
    && (forall c :: c in s.states ==>
          && UniqueNames(s.states[c].topics)
          && (s.states[c].q.waiting > 0 ==> s.states[c].q.queue == [])
          && (!s.states[c].alive ==> s.states[c].q.waiting == s.states[c].q.woken == 0))
  }

  lemma {:induction false} FilterKeeps(clients: seq<ClientId>, keep: ClientId -> bool)
    ensures forall c :: c in Filter(clients, keep) <==> c in clients && keep(c)
    ensures NoDuplicates(clients) ==> NoDuplicates(Filter(clients, keep))
  {
    if clients != [] {
      var init, last := clients[..|clients| - 1], clients[|clients| - 1];
      FilterKeeps(init, keep);
      assert clients == init + [last];
      if NoDuplicates(clients) {
        assert NoDuplicates(init);
        assert last !in init;
      }
    }
  }

  predicate Wants(topics: seq<TopicSubopts>, r: RecvResult) {
    r.Failed? || (r.packet.Publish? && HasName(topics, r.packet.topic))
  }

  lemma CopiesIsWants(topics: seq<TopicSubopts>, r: RecvResult)
    requires UniqueNames(topics)
    ensures Copies(topics, r) == if Wants(topics, r) then 1 else 0
  {
    if r.Received? && r.packet.Publish? {
      CountNameUnique(topics, r.packet.topic);
    }
  }

  /** Exactly-once dispatch: although neither loop stops at a match, each live registered client
      that wants the result gets one copy, and no other client changes. */
  lemma {:induction false} DispatchExactlyOnce(
    states: map<ClientId, Client>, clients: seq<ClientId>, r: RecvResult)
    requires NoDuplicates(clients)
    requires forall c :: c in states ==> UniqueNames(states[c].topics)
    ensures Dispatch(states, clients, r).Keys == states.Keys
    ensures forall c :: c in states ==>
      Dispatch(states, clients, r)[c] ==
      if c in clients && states[c].alive && Wants(states[c].topics, r)
      then states[c].(q := RecvQueue.Push(states[c].q, r)) else states[c]
  {
    if clients != [] {
      var init, last := clients[..|clients| - 1], clients[|clients| - 1];
      DispatchExactlyOnce(states, init, r);
      assert clients == init + [last];
      assert last !in init;
      if last in states {
        CopiesIsWants(states[last].topics, r);
        assert PushCopies(states[last].q, r, 1) == RecvQueue.Push(PushCopies(states[last].q, r, 0), r);
      }
    }
  }

  lemma StepKeepsInv(s: Mux, e: Event)
    requires Inv(s) && Enabled(s, e)
    ensures Inv(Step(s, e))
  {
    match e
    case SubscribeOk(c, topics) => UpsertAllNames(s.states[c].topics, topics);
    case RecvEnter(c) => RecvQueue.PopsKeep(s.states[c].q);
    case RecvResume(c) => RecvQueue.PopsKeep(s.states[c].q);
    case Detach(c) => FilterKeeps(s.clients, (d: ClientId) => d != c);
    case Prune => FilterKeeps(s.clients, (c: ClientId) => Live(s, c));
    case Result(r) => DispatchExactlyOnce(s.states, s.clients, r);
    case MakeClient(_) =>
    case Expire(_) =>
  }

  lemma {:induction false} RunKeepsInv(es: seq<Event>)
    requires ValidRun(es)
    ensures Inv(Run(es))
  {
    if es != [] {
      RunKeepsInv(es[..|es| - 1]);
      StepKeepsInv(Run(es[..|es| - 1]), es[|es| - 1]);
    }
  }

  /** Exactly-once dispatch in every run: the pump's result is appended once to the queue of each live
      registered client it is for, and to no other. */
  lemma ResultIsDeliveredOnce(es: seq<Event>, r: RecvResult, c: ClientId)
    requires ValidRun(es) && Enabled(Run(es), Result(r)) && c in Run(es).states
    ensures c in Step(Run(es), Result(r)).states
    ensures Step(Run(es), Result(r)).states[c].q.queue == Run(es).states[c].q.queue +
      (if LiveRegistered(Run(es), c) && Wants(Run(es).states[c].topics, r) then [r] else [])
  {
    RunKeepsInv(es);
    DispatchExactlyOnce(Run(es).states, Run(es).clients, r);
  }

  // ---------- The reference: one private filtered stream per client ----------

  /** A connection with a single logical client: no client list, no pruning, nobody else. */
  datatype Private = Private(
    alive: bool,
    registered: bool,
    topics: seq<TopicSubopts>,
    q: RecvQueue.Queue)

  const ABSENT := Private(false, false, [], RecvQueue.EMPTY)

  ghost predicate Own(e: Event, c: ClientId) {
    !e.Prune? && !e.Result? && e.c == c
  }

  function PrivateStep(p: Private, e: Event): Private {
    match e
    case MakeClient(_) => p.(alive := true)
    case SubscribeOk(_, topics) => p.(registered := true, topics := UpsertAll(p.topics, topics))
    case RecvEnter(_) => p.(registered := true, q := RecvQueue.Enter(p.q))
    case RecvResume(_) => if p.q.woken > 0 then p.(q := RecvQueue.Resume(p.q)) else p
    case Detach(_) => p.(registered := false)
    case Expire(_) => p.(alive := false, registered := false)
    case Prune => p
    case Result(r) => if p.registered && Wants(p.topics, r) then p.(q := RecvQueue.Push(p.q, r)) else p
  }

  /** What client `c` sees of a run: its own calls and the physical results. */
  ghost function Restrict(es: seq<Event>, c: ClientId): seq<Event> {
    if es == [] then []
    else
      var last := es[|es| - 1];
      Restrict(es[..|es| - 1], c) + (if last.Result? || Own(last, c) then [last] else [])
  }

  ghost function PrivateRun(es: seq<Event>): Private {
    if es == [] then ABSENT else PrivateStep(PrivateRun(es[..|es| - 1]), es[|es| - 1])
  }

  ghost function Project(s: Mux, c: ClientId): Private {
    if c in s.states then
      Private(s.states[c].alive, c in s.clients && s.states[c].alive, s.states[c].topics, s.states[c].q)
    else ABSENT
  }

  lemma ForeignStepInvisible(s: Mux, e: Event, c: ClientId)
    requires Inv(s) && Enabled(s, e) && !e.Result? && !Own(e, c)
    ensures Project(Step(s, e), c) == Project(s, c)
  {
    match e
    case Detach(d) => FilterKeeps(s.clients, (x: ClientId) => x != d);
    case Prune => FilterKeeps(s.clients, (x: ClientId) => Live(s, x));
    case _ =>
  }

  lemma VisibleStepAgrees(s: Mux, e: Event, c: ClientId)
    requires Inv(s) && Enabled(s, e) && (e.Result? || Own(e, c))
    ensures Project(Step(s, e), c) == PrivateStep(Project(s, c), e)
  {
    match e
    case Detach(d) => FilterKeeps(s.clients, (x: ClientId) => x != d);
    case Result(r) => DispatchExactlyOnce(s.states, s.clients, r);
    case _ =>
  }

  /** The multiplexer refines private streams: in every run, registration, topics, queue and
      received results of every client are those of its own one-client machine, so other clients'
      subscribes, detaches, expiries and the lazy pruning are invisible to it. */
  lemma {:induction false} MultiplexerRefinesPrivateStreams(es: seq<Event>, c: ClientId)
    requires ValidRun(es)
    ensures Project(Run(es), c) == PrivateRun(Restrict(es, c))
  {
    if es != [] {
      var init, last := es[..|es| - 1], es[|es| - 1];
      MultiplexerRefinesPrivateStreams(init, c);
      RunKeepsInv(init);
      if last.Result? || Own(last, c) {
        VisibleStepAgrees(Run(init), last, c);
        var rs := Restrict(es, c);
        assert rs[..|rs| - 1] == Restrict(init, c);
      } else {
        ForeignStepInvisible(Run(init), last, c);
        assert Restrict(es, c) == Restrict(init, c);
      }
    }
  }

  // ---------- Conservation, from the history alone ----------

  /** The last call that touched the registration was a successful subscribe or a receive. */
  predicate RegisteredAfter(es: seq<Event>, c: ClientId) {
    if es == [] then false
    else
      match es[|es| - 1]
      case SubscribeOk(d, _) => d == c || RegisteredAfter(es[..|es| - 1], c)
      case RecvEnter(d) => d == c || RegisteredAfter(es[..|es| - 1], c)
      case Detach(d) => d != c && RegisteredAfter(es[..|es| - 1], c)
      case Expire(d) => d != c && RegisteredAfter(es[..|es| - 1], c)
      case _ => RegisteredAfter(es[..|es| - 1], c)
  }

  /** Some earlier successful subscribe of `c` named this topic. */
  predicate SubscribedIn(es: seq<Event>, c: ClientId, topic: string) {
    exists i :: 0 <= i < |es| && es[i].SubscribeOk? && es[i].c == c && HasName(es[i].topics, topic)
  }

  predicate Due(es: seq<Event>, c: ClientId, r: RecvResult) {
    RegisteredAfter(es, c) && (r.Failed? || (r.packet.Publish? && SubscribedIn(es, c, r.packet.topic)))
  }

  /** The physical results due to `c`, each judged at the step it arrived. */
  function DueResults(es: seq<Event>, c: ClientId): seq<RecvResult> {
    if es == [] then []
    else
      var init, last := es[..|es| - 1], es[|es| - 1];
      DueResults(init, c) + (if last.Result? && Due(init, c, last.r) then [last.r] else [])
  }

  lemma SubscribedInSnoc(es: seq<Event>, e: Event, c: ClientId, topic: string)
    ensures SubscribedIn(es + [e], c, topic) <==>
            SubscribedIn(es, c, topic) || (e.SubscribeOk? && e.c == c && HasName(e.topics, topic))
  {
    var es' := es + [e];
    if SubscribedIn(es, c, topic) {
      var i :| 0 <= i < |es| && es[i].SubscribeOk? && es[i].c == c && HasName(es[i].topics, topic);
      assert es'[i] == es[i];
    }
    assert es'[|es|] == e;
  }

  /** Who is registered, and for which topics, is determined by each client's own history. */
  lemma {:induction false} HistoryDeterminesRegistration(es: seq<Event>, c: ClientId)
    requires ValidRun(es)
    ensures RegisteredAfter(es, c) <==> c in Run(es).clients && Live(Run(es), c)
    ensures c !in Run(es).states ==> forall topic :: !SubscribedIn(es, c, topic)
    ensures c in Run(es).states ==>
      forall topic :: SubscribedIn(es, c, topic) <==> HasName(Run(es).states[c].topics, topic)
  {
    if es != [] {
      var init, last := es[..|es| - 1], es[|es| - 1];
      var s := Run(init);
      HistoryDeterminesRegistration(init, c);
      RunKeepsInv(init);
      assert es == init + [last];
      forall topic
        ensures SubscribedIn(es, c, topic) <==>
                SubscribedIn(init, c, topic) || (last.SubscribeOk? && last.c == c && HasName(last.topics, topic))
      {
        SubscribedInSnoc(init, last, c, topic);
      }
      match last {
        case SubscribeOk(d, topics) => UpsertAllNames(s.states[d].topics, topics);
        case Detach(d) => FilterKeeps(s.clients, (x: ClientId) => x != d);
        case Prune => FilterKeeps(s.clients, (x: ClientId) => Live(s, x));
        case Result(r) => DispatchExactlyOnce(s.states, s.clients, r);
        case _ =>
      }
    }
  }

  /** The length of the run when the client's present registration began. */
  function Since(es: seq<Event>, c: ClientId): nat {
    if es == [] || (RegisteredAfter(es, c) && !RegisteredAfter(es[..|es| - 1], c)) then |es|
    else Since(es[..|es| - 1], c)
  }

  ghost predicate InOrder(clients: seq<ClientId>, es: seq<Event>) {
    forall i, j :: 0 <= i < j < |clients| && RegisteredAfter(es, clients[i]) && RegisteredAfter(es, clients[j]) ==>
      Since(es, clients[i]) < Since(es, clients[j])
  }

  lemma {:induction false} FilterInOrder(clients: seq<ClientId>, keep: ClientId -> bool, es: seq<Event>)
    requires InOrder(clients, es)
    ensures InOrder(Filter(clients, keep), es)
  {
    if clients != [] {
      var init := clients[..|clients| - 1];
      FilterInOrder(init, keep, es);
      FilterKeeps(init, keep);
      var kept := Filter(init, keep);
      forall i | 0 <= i < |kept| ensures exists k :: 0 <= k < |init| && clients[k] == kept[i] {
        assert kept[i] in init;
      }
    }
  }

  lemma {:induction false} SinceBounded(es: seq<Event>, c: ClientId)
    ensures Since(es, c) <= |es|
  {
    if es != [] {
      SinceBounded(es[..|es| - 1], c);
    }
  }

  lemma StepKeepsOrder(clients: seq<ClientId>, es: seq<Event>, e: Event, clients': seq<ClientId>)
    requires InOrder(clients, es)
    requires forall c :: c in clients && RegisteredAfter(es + [e], c) ==> RegisteredAfter(es, c)
    requires clients' == clients || (!e.Prune? && !e.Result? && clients' == clients + [e.c] && !RegisteredAfter(es, e.c))
    ensures InOrder(clients', es + [e])
  {
    var es' := es + [e];
    assert es'[..|es'| - 1] == es;
    forall c ensures Since(es, c) <= |es| {
      SinceBounded(es, c);
    }
  }

  /** The connection serves its clients in the order in which their present registrations began. */
  lemma {:induction false} ClientsAreInOrder(es: seq<Event>)
    requires ValidRun(es)
    ensures InOrder(Run(es).clients, es)
  {
    if es != [] {
      var init, last := es[..|es| - 1], es[|es| - 1];
      var s := Run(init);
      ClientsAreInOrder(init);
      assert es == init + [last];
      forall c ensures RegisteredAfter(init, c) <==> LiveRegistered(s, c) {
        HistoryDeterminesRegistration(init, c);
      }
      match last {
        case Detach(d) =>
          StepKeepsOrder(s.clients, init, last, s.clients);
          FilterInOrder(s.clients, (x: ClientId) => x != d, es);
        case Prune =>
          StepKeepsOrder(s.clients, init, last, s.clients);
          FilterInOrder(s.clients, (x: ClientId) => Live(s, x), es);
        case _ => StepKeepsOrder(s.clients, init, last, Run(es).clients);
      }
    }
  }

  /** Conservation and order: what a client's receivers got, followed by what is still queued, is
      the sequence of physical results due to it. Nothing is lost, duplicated or reordered. */
  lemma {:induction false} Conservation(es: seq<Event>, c: ClientId)
    requires ValidRun(es)
    ensures c !in Run(es).states ==> DueResults(es, c) == []
    ensures c in Run(es).states ==>
      Run(es).states[c].q.popped + Run(es).states[c].q.queue == DueResults(es, c)
  {
    if es != [] {
      var init, last := es[..|es| - 1], es[|es| - 1];
      var s := Run(init);
      Conservation(init, c);
      RunKeepsInv(init);
      match last {
        case Result(r) =>
          HistoryDeterminesRegistration(init, c);
          DispatchExactlyOnce(s.states, s.clients, r);
          if c in s.states {
            RecvQueue.PushKeeps(s.states[c].q, r);
          }
        case RecvEnter(d) => RecvQueue.PopsKeep(s.states[d].q);
        case RecvResume(d) => RecvQueue.PopsKeep(s.states[d].q);
        case _ =>
      }
    }
  }

  // ---------- The registered topics ----------

  /** The successful subscribe calls of `c`, oldest first. */
  function SubscribeCalls(es: seq<Event>, c: ClientId): seq<seq<TopicSubopts>> {
    if es == [] then []
    else
      var last := es[|es| - 1];
      SubscribeCalls(es[..|es| - 1], c) + (if last.SubscribeOk? && last.c == c then [last.topics] else [])
  }

  /** In every run a client's list holds, for each name it subscribed, the last options given, as
      the broker does. */
  lemma {:induction false} RegisteredTopicsMatchBroker(es: seq<Event>, c: ClientId)
    requires ValidRun(es)
    ensures c !in Run(es).states ==> SubscribeCalls(es, c) == []
    ensures c in Run(es).states ==>
      && Run(es).states[c].topics == UpsertCalls(SubscribeCalls(es, c))
      && Represents(Run(es).states[c].topics, BrokerStoreCalls(SubscribeCalls(es, c)))
  {
    if es != [] {
      var init, last := es[..|es| - 1], es[|es| - 1];
      var calls := SubscribeCalls(es, c);
      RegisteredTopicsMatchBroker(init, c);
      RunKeepsInv(init);
      if last.Result? {
        DispatchExactlyOnce(Run(init).states, Run(init).clients, last.r);
      }
      if last.SubscribeOk? && last.c == c {
        assert calls[..|calls| - 1] == SubscribeCalls(init, c);
      } else {
        assert calls == SubscribeCalls(init, c);
      }
      TopicListIsOrderedMap(calls);
    }
  }

  // ---------- Detach under interleaving ----------

  ghost predicate Reattaches(e: Event, c: ClientId) {
    (e.RecvEnter? || e.SubscribeOk?) && e.c == c
  }

  lemma {:induction false} UnregisteredGetsNothing(before: seq<Event>, after: seq<Event>, c: ClientId)
    requires !RegisteredAfter(before, c)
    requires forall i :: 0 <= i < |after| ==> !Reattaches(after[i], c)
    ensures !RegisteredAfter(before + after, c)
    ensures DueResults(before + after, c) == DueResults(before, c)
  {
    if after == [] {
      assert before + after == before;
    } else {
      var init := after[..|after| - 1];
      UnregisteredGetsNothing(before, init, c);
      var es := before + after;
      assert es[..|es| - 1] == before + init;
    }
  }

  lemma {:induction false} PrefixValid(es: seq<Event>, after: seq<Event>)
    requires ValidRun(es + after)
    ensures ValidRun(es)
    ensures Run(es).states.Keys <= Run(es + after).states.Keys
  {
    if after == [] {
      assert es + after == es;
    } else {
      var all := es + after;
      assert all[..|all| - 1] == es + after[..|after| - 1];
      PrefixValid(es, after[..|after| - 1]);
      RunKeepsInv(all[..|all| - 1]);
      var s, e := Run(all[..|all| - 1]), all[|all| - 1];
      if e.Result? {
        DispatchExactlyOnce(s.states, s.clients, e.r);
      }
    }
  }

  lemma DetachedOwesNothing(before: seq<Event>, c: ClientId)
    requires ValidRun(before + [Detach(c)])
    ensures ValidRun(before) && c in Run(before).states
    ensures !RegisteredAfter(before + [Detach(c)], c)
    ensures DueResults(before + [Detach(c)], c) == DueResults(before, c)
  {
    var es := before + [Detach(c)];
    assert es[..|es| - 1] == before && es[|es| - 1] == Detach(c);
  }

  lemma SameDue(es: seq<Event>, es': seq<Event>, c: ClientId)
    requires ValidRun(es) && ValidRun(es') && c in Run(es).states && c in Run(es').states
    requires DueResults(es, c) == DueResults(es', c)
    ensures Run(es).states[c].q.popped + Run(es).states[c].q.queue ==
            Run(es').states[c].q.popped + Run(es').states[c].q.queue
  {
    Conservation(es, c);
    Conservation(es', c);
  }

  /** From the step that detaches `c` until its own next receive or successful subscribe, nothing is
      delivered to it, including by a pump that had pruned and suspended before the detach. */
  lemma DetachIsEffective(before: seq<Event>, after: seq<Event>, c: ClientId)
    requires ValidRun(before + [Detach(c)] + after)
    requires forall i :: 0 <= i < |after| ==> !Reattaches(after[i], c)
    ensures ValidRun(before) && c in Run(before).states && c in Run(before + [Detach(c)] + after).states
    ensures var q, q' := Run(before).states[c].q, Run(before + [Detach(c)] + after).states[c].q;
            q'.popped + q'.queue == q.popped + q.queue
  {
    var es := before + [Detach(c)];
    PrefixValid(es, after);
    PrefixValid(before, [Detach(c)]);
    assert DueResults(es + after, c) == DueResults(before, c) by {
      DetachedOwesNothing(before, c);
      UnregisteredGetsNothing(es, after, c);
    }
    DetachedOwesNothing(before, c);
    SameDue(before, es + after, c);
  }

  /** A detached client is not gone: its next receive registers it again with its old topics, and a
      session reset dispatched in between has passed it by. Every run whose pump is suspended with no
      session reset in the client's queue goes on to such a state. */
  lemma UseAfterCloseMissesReset(es: seq<Event>, c: ClientId)
    requires ValidRun(es) && Live(Run(es), c) && Run(es).pump == Receiving
    requires Failed(SessionReset) !in Run(es).states[c].q.queue
    ensures var all := es + [Detach(c)] + [Result(Failed(SessionReset))] + [RecvEnter(c)];
            && ValidRun(all)
            && c in Run(all).clients && c in Run(all).states && Run(all).states[c].topics == Run(es).states[c].topics
            && Failed(SessionReset) !in Run(all).states[c].q.queue
  {
    var reset, s := Failed(SessionReset), Run(es);
    RunKeepsInv(es);
    FilterKeeps(s.clients, (d: ClientId) => d != c);
    ExtendRun(es, Detach(c));
    var s1 := Run(es + [Detach(c)]);
    RunKeepsInv(es + [Detach(c)]);
    DispatchExactlyOnce(s1.states, s1.clients, reset);
    ExtendRun(es + [Detach(c)], Result(reset));
    ExtendRun(es + [Detach(c)] + [Result(reset)], RecvEnter(c));
  }

  // ---------- The shape of the pump's run ----------

  /** After pruning, exactly the live entries are left. */
  lemma PruneLeavesLive(es: seq<Event>)
    requires ValidRun(es) && Enabled(Run(es), Prune)
    ensures var s, s' := Run(es), Step(Run(es), Prune);
            && (forall c :: c in s'.clients <==> LiveRegistered(s, c))
            && (forall c :: c in s'.clients ==> LiveRegistered(s', c))
            && s'.states == s.states
  {
    RunKeepsInv(es);
    FilterKeeps(Run(es).clients, (c: ClientId) => Live(Run(es), c));
  }

  /** The pump's own steps in a run. */
  ghost function PumpPart(es: seq<Event>): seq<Event> {
    if es == [] then []
    else
      var last := es[|es| - 1];
      PumpPart(es[..|es| - 1]) + (if last.Prune? || last.Result? then [last] else [])
  }

  /** The physical results of a run. */
  ghost function Results(es: seq<Event>): seq<RecvResult> {
    if es == [] then []
    else
      var last := es[|es| - 1];
      Results(es[..|es| - 1]) + (if last.Result? then [last.r] else [])
  }

  /** The pump prunes once before each physical result, and at no other time. */
  lemma {:induction false} PumpAlternates(es: seq<Event>)
    requires ValidRun(es)
    ensures PumpPart(es) == PumpEvents(Results(es)) + (if Run(es).pump == Receiving then [Prune] else [])
  {
    if es != [] {
      var init, last := es[..|es| - 1], es[|es| - 1];
      PumpAlternates(init);
      if last.Result? {
        var rs := Results(es);
        assert rs[..|rs| - 1] == Results(init);
      } else {
        assert Results(es) == Results(init);
      }
    }
  }

  ghost predicate EndsPump(e: Event) {
    e.Result? && Terminal(e.r)
  }

  /** The pump has returned exactly when it received an error other than a session reset. */
  lemma {:induction false} PumpEndedIff(es: seq<Event>)
    requires ValidRun(es)
    ensures Run(es).pump == Ended <==> exists k :: 0 <= k < |es| && EndsPump(es[k])
  {
    if es != [] {
      var init, last := es[..|es| - 1], es[|es| - 1];
      PumpEndedIff(init);
      if k :| 0 <= k < |init| && EndsPump(init[k]) {
        assert EndsPump(es[k]);
      }
      if EndsPump(last) {
        assert EndsPump(es[|es| - 1]);
      }
      if k :| 0 <= k < |es| && EndsPump(es[k]) {
        assert k < |init| ==> EndsPump(init[k]);
      }
    }
  }

  lemma {:induction false} NoResultAfterEnd(es: seq<Event>, after: seq<Event>, c: ClientId)
    requires ValidRun(es + after) && ValidRun(es) && Run(es).pump == Ended
    ensures Run(es + after).pump == Ended
    ensures forall j :: 0 <= j < |after| ==> !after[j].Result? && !after[j].Prune?
    ensures DueResults(es + after, c) == DueResults(es, c)
  {
    if after == [] {
      assert es + after == es;
    } else {
      var init, all := after[..|after| - 1], es + after;
      assert all[..|all| - 1] == es + init;
      NoResultAfterEnd(es, init, c);
      assert forall j :: 0 <= j < |init| ==> after[j] == init[j];
    }
  }

  /** The pump stops at the first error other than a session reset: it consumes no result after it,
      and that error is the last one delivered to every client live and registered at that step. */
  lemma TerminalErrorIsLastDelivery(before: seq<Event>, r: RecvResult, after: seq<Event>, c: ClientId)
    requires ValidRun(before + [Result(r)] + after) && Terminal(r)
    ensures forall j :: 0 <= j < |after| ==> !after[j].Result?
    ensures ValidRun(before)
    ensures DueResults(before + [Result(r)] + after, c) ==
            DueResults(before, c) + (if LiveRegistered(Run(before), c) then [r] else [])
  {
    var es := before + [Result(r)];
    PrefixValid(es, after);
    assert es[..|es| - 1] == before && es[|es| - 1] == Result(r);
    NoResultAfterEnd(es, after, c);
    HistoryDeterminesRegistration(before, c);
  }
}
