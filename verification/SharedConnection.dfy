/** The shared connection and its logical clients as objects, updated in place by the loops of the
    source. Every method is proved to perform one step of the multiplexer. */
module SharedConnection {
  import opened Mqtt
  import opened TopicList
  import opened Multiplexer
  import RecvQueue

  /** The state behind a logical client's handle. `alive` stands for the owner count: once it is
      false, the connection's weak pointers to this object can no longer be locked. */
  class SharedClientState {
    ghost const id: ClientId
    const queue: RecvQueue.RecvResultQueue
    var alive: bool
    var topics: seq<TopicSubopts>

    ghost function Model(): Client
      reads this, queue
    {
      Client(alive, topics, queue.Model())
    }

    constructor (ghost id: ClientId)
      ensures this.id == id && queue.owner == id && Model() == FRESH && fresh(queue)
    {
      this.id := id;
      queue := new RecvQueue.RecvResultQueue(id);
      alive := true;
      topics := [];
    }

    /** The first entry with this name, by linear search. */
    method FindTopic(name: string) returns (i: nat)
      ensures i == IndexOf(topics, name)
    {
      i := 0;
      while i < |topics| && topics[i].topic != name
        invariant 0 <= i <= |topics|
        invariant forall j :: 0 <= j < i ==> topics[j].topic != name
      {
        i := i + 1;
      }
    }

    /** After a granted subscribe: refresh or append each entry. */
    method RegisterTopics(added: seq<TopicSubopts>)
      modifies this
      ensures topics == UpsertAll(old(topics), added)
      ensures alive == old(alive)
    {
      for n := 0 to |added|
        invariant topics == UpsertAll(old(topics), added[..n])
        invariant alive == old(alive)
      {
        var topic := added[n];
        var i := FindTopic(topic.topic);
        if i == |topics| {
          topics := topics + [topic];
        } else {
          topics := topics[i := topic];
        }
        assert added[..n + 1][..n] == added[..n];
      }
      assert added[..|added|] == added;
    }

    /** The inner dispatch loop: one copy per matching topic entry, with no early exit. */
    method PushMatches(result: RecvResult, name: string)
      modifies queue
      ensures queue.Model() == PushCopies(old(queue.Model()), result, CountName(topics, name))
    {
      for j := 0 to |topics|
        invariant queue.Model() == PushCopies(old(queue.Model()), result, CountName(topics[..j], name))
      {
        assert topics[..j + 1][..j] == topics[..j];
        if topics[j].topic == name {
          queue.PushBack(result);
        }
      }
      assert topics[..|topics|] == topics;
    }

    /** What the dispatch does for one live client. */
    method PushAll(result: RecvResult)
      modifies queue
      ensures queue.Model() == PushCopies(old(queue.Model()), result, Copies(topics, result))
    {
      if result.Failed? {
        assert PushCopies(queue.Model(), result, 1) == RecvQueue.Push(PushCopies(queue.Model(), result, 0), result);
        queue.PushBack(result);
      } else if result.packet.Publish? {
        PushMatches(result, result.packet.topic);
      }
    }
  }

  ghost function Ids(cs: seq<SharedClientState>): seq<ClientId> {
    seq(|cs|, i requires 0 <= i < |cs| => cs[i].id)
  }

  /** A step of a logical client's calls: the end of a subscribe, a receive up to its suspension and
      after its wakeup, a detach, and the loss of the last owner. */
  datatype ClientCall =
    | Subscribing(state: SharedClientState, topics: seq<TopicSubopts>, err: ErrorCode)
    | Entering(state: SharedClientState)
    | Waking(state: SharedClientState)
    | Detaching(state: SharedClientState)
    | Expiring(state: SharedClientState)

  lemma PumpPartSnoc(es: seq<Event>, e: Event)
    ensures PumpPart(es + [e]) == PumpPart(es) + (if e.Prune? || e.Result? then [e] else [])
  {
    assert (es + [e])[..|es + [e]| - 1] == es;
  }

  /** At most one step was added, and it is none of the pump's. */
  lemma PumpPartOfCall(before: seq<Event>, after: seq<Event>)
    requires after == before || (|after| == |before| + 1 && before <= after && !after[|before|].Prune? && !after[|before|].Result?)
    ensures PumpPart(after) == PumpPart(before)
  {
    if after != before {
      assert after == before + [after[|before|]];
      PumpPartSnoc(before, after[|before|]);
    }
  }

  class SharedAsyncMqttConnection {
    /** Weak pointers to the registered clients. */
    var clients: seq<SharedClientState>
    ghost var pump: Pump
    /** Every client state ever created on this connection. */
    ghost var registry: map<ClientId, SharedClientState>
    ghost var nextId: ClientId
    ghost var queues: set<RecvQueue.RecvResultQueue>
    /** Every step performed so far. */
    ghost var history: seq<Event>

    ghost predicate Wired()
      reads `registry, `nextId, `clients, `queues
    {
      && (forall i :: i in registry ==>
            registry[i].id == registry[i].queue.owner == i && i < nextId && registry[i].queue in queues)
      && (forall k :: 0 <= k < |clients| ==> Known(clients[k]))
    }

    ghost predicate Known(state: SharedClientState)
      reads `registry
    {
      state.id in registry && registry[state.id] == state
    }

    ghost function States(): map<ClientId, Client>
      requires Wired()
      reads `registry, `nextId, `clients, registry.Values, `queues, queues
    {
      map i | i in registry :: registry[i].Model()
    }

    ghost function Model(): Mux
      requires Wired()
      reads `clients, `pump, `registry, `nextId, registry.Values, `queues, queues
    {
      Mux(Ids(clients), States(), pump)
    }

    /** The object is well-formed and its state is the one its history leads to, so every theorem
        about runs of the multiplexer is a theorem about this object. */
    ghost predicate Valid()
      reads this, registry.Values, queues
    {
      Wired() && ValidRun(history) && Model() == Run(history)
    }

    /** Append the step just performed to the history. */
    ghost method Record(e: Event)
      requires Wired() && ValidRun(history) && Enabled(Run(history), e)
      requires Model() == Step(Run(history), e)
      modifies `history
      ensures Valid() && history == old(history) + [e]
    {
      ExtendRun(history, e);
      history := history + [e];
    }

    constructor ()
      ensures Valid() && history == [] && registry == map[]
    {
      clients := [];
      pump, registry, nextId, queues, history := Pruning, map[], 0, {}, [];
    }

    method AllocateClient() returns (state: SharedClientState)
      requires Wired()
      modifies `registry, `nextId, `queues
      ensures Wired() && Known(state) && fresh(state) && fresh(state.queue)
      ensures state.id !in old(registry) && registry == old(registry)[state.id := state]
      ensures States() == old(States())[state.id := FRESH]
    {
      state := new SharedClientState(nextId);
      registry := registry[nextId := state];
      queues := queues + {state.queue};
      nextId := nextId + 1;
    }

    /** The new client is not registered until it subscribes or receives. */
    method MakeClient() returns (state: SharedClientState)
      requires Valid()
      modifies this
      ensures Valid() && Known(state) && fresh(state) && fresh(state.queue)
      ensures registry == old(registry)[state.id := state]
      ensures history == old(history) + [Event.MakeClient(state.id)]
    {
      state := AllocateClient();
      Record(Event.MakeClient(state.id));
    }

    method IsRegistered(state: SharedClientState) returns (found: bool)
      requires Wired() && Known(state) && state.alive
      ensures found <==> state.id in Ids(clients)
    {
      found := false;
      var i := 0;
      while i < |clients| && !found
        invariant 0 <= i <= |clients|
        invariant found ==> state in clients
        invariant !found ==> state !in clients[..i]
      {
        found := clients[i].alive && clients[i] == state;
        i := i + 1;
      }
      IdsMembers(state);
    }

    lemma IdsMembers(state: SharedClientState)
      requires Wired() && Known(state)
      ensures state.id in Ids(clients) <==> state in clients
    {
      if state in clients {
        var k :| 0 <= k < |clients| && clients[k] == state;
        assert Ids(clients)[k] == state.id;
      }
      if state.id in Ids(clients) {
        var k :| 0 <= k < |clients| && Ids(clients)[k] == state.id;
        assert Known(clients[k]);
      }
    }

    method RegisterOnce(state: SharedClientState)
      requires Wired() && Known(state) && state.alive
      modifies this`clients
      ensures Wired() && Ids(clients) == Register(old(Ids(clients)), state.id)
    {
      var registered := IsRegistered(state);
      if !registered {
        clients := clients + [state];
      }
    }

    method RegisterTopicsOf(state: SharedClientState, topics: seq<TopicSubopts>)
      requires Wired() && Known(state)
      modifies state
      ensures States() == old(States())[state.id := old(state.Model()).(topics := UpsertAll(old(state.topics), topics))]
      ensures state.alive == old(state.alive)
    {
      state.RegisterTopics(topics);
    }

    method Grant(state: SharedClientState, topics: seq<TopicSubopts>)
      requires Wired() && Known(state) && state.alive
      modifies `clients, state
      ensures Wired() && pump == old(pump)
      ensures Ids(clients) == Register(old(Ids(clients)), state.id)
      ensures States() == old(States())[state.id := old(state.Model()).(topics := UpsertAll(old(state.topics), topics))]
    {
      RegisterTopicsOf(state, topics);
      label registered:
      RegisterOnce(state);
      assert States() == old@registered(States());
    }

    /** `err` is the outcome of the physical subscribe. A failure changes nothing here. */
    method Subscribe(state: SharedClientState, topics: seq<TopicSubopts>, err: ErrorCode)
      requires Valid() && Known(state) && state.alive
      modifies `clients, `history, state
      ensures Valid()
      ensures history == old(history) + (if err == Success then [SubscribeOk(state.id, topics)] else [])
    {
      if err != Success {
        return;
      }
      ghost var before := Model();
      assert before.states[state.id] == state.Model();
      Grant(state, topics);
      assert Model() == Step(before, SubscribeOk(state.id, topics));
      Record(SubscribeOk(state.id, topics));
    }

    method PopStart(state: SharedClientState) returns (result: Option<RecvResult>)
      requires Wired() && Known(state)
      modifies state.queue
      ensures States() == old(States())[state.id := old(state.Model()).(q := RecvQueue.Enter(old(state.queue.Model())))]
      ensures result == if old(state.queue.queue) == [] then None else Some(old(state.queue.queue)[0])
    {
      result := state.queue.PopFrontStart();
    }

    /** A receive call up to its suspension point. */
    method RecvStart(state: SharedClientState) returns (result: Option<RecvResult>)
      requires Valid() && Known(state) && state.alive
      modifies `clients, `history, state.queue
      ensures Valid() && history == old(history) + [RecvEnter(state.id)]
      ensures result == if old(state.queue.queue) == [] then None else Some(old(state.queue.queue)[0])
    {
      ghost var before := Model();
      assert before.states[state.id] == state.Model();
      RegisterOnce(state);
      assert States() == before.states;
      result := PopStart(state);
      Record(RecvEnter(state.id));
    }

    /** A receive call after its wait was cancelled. */
    method RecvWake(state: SharedClientState) returns (result: RecvResult)
      requires Valid() && Known(state) && state.alive && state.queue.woken > 0
      modifies `history, state.queue
      ensures Valid() && history == old(history) + [RecvResume(state.id)]
      ensures result == RecvQueue.Resumed(old(state.queue.Model()))
    {
      result := state.queue.PopFrontResume();
      Record(RecvResume(state.id));
    }

    /** Erase the entries that fail the test. The test is on the entry's identity or liveness. */
    method EraseClients(ghost keep: ClientId -> bool, detached: Option<SharedClientState>)
      requires Wired()
      requires detached.Some? ==> Known(detached.value) && detached.value.alive
      requires forall k :: 0 <= k < |clients| ==>
        (keep(clients[k].id) <==> if detached.Some? then clients[k] != detached.value else clients[k].alive)
      modifies this`clients
      ensures Wired() && Ids(clients) == Filter(old(Ids(clients)), keep)
    {
      var kept: seq<SharedClientState> := [];
      ghost var ids := Ids(clients);
      for i := 0 to |clients|
        invariant clients == old(clients)
        invariant forall k :: 0 <= k < |kept| ==> Known(kept[k])
        invariant Ids(kept) == Filter(ids[..i], keep)
      {
        assert Known(clients[i]) && ids[i] == clients[i].id;
        assert ids[..i + 1][..i] == ids[..i];
        var erased := if detached.Some? then clients[i].alive && clients[i] == detached.value else !clients[i].alive;
        if !erased {
          kept := kept + [clients[i]];
        }
      }
      assert ids[..|clients|] == ids;
      clients := kept;
    }

    method Detach(state: SharedClientState)
      requires Valid() && Known(state) && state.alive
      modifies `clients, `history
      ensures Valid() && history == old(history) + [Event.Detach(state.id)]
    {
      assert forall k :: 0 <= k < |clients| ==> Known(clients[k]);
      EraseClients((d: ClientId) => d != state.id, Some(state));
      Record(Event.Detach(state.id));
    }

    /** The last owner of the state goes away. */
    method Expire(state: SharedClientState)
      requires Valid() && Known(state) && state.alive
      requires state.queue.waiting == state.queue.woken == 0
      modifies `history, state`alive
      ensures Valid() && history == old(history) + [Event.Expire(state.id)]
    {
      state.alive := false;
      Record(Event.Expire(state.id));
    }

    /** The start of a pump step, up to the suspension in the physical receive. */
    method RemoveExpiredClients()
      requires Valid() && pump == Pruning
      modifies `clients, `pump, `history
      ensures Valid() && history == old(history) + [Prune] && pump == Receiving
      ensures PumpPart(history) == PumpPart(old(history)) + [Prune]
    {
      ghost var before := Model();
      assert forall k :: 0 <= k < |clients| ==> Known(clients[k]);
      EraseClients((c: ClientId) => Live(before, c), None);
      pump := Receiving;
      Record(Prune);
      PumpPartSnoc(old(history), Prune);
    }

    /** One entry of the dispatch loop: an expired entry is skipped, an error is pushed once. */
    method DeliverTo(client: SharedClientState, result: RecvResult)
      requires Wired() && Known(client)
      modifies client.queue
      ensures States() == Deliver(old(States()), client.id, result)
    {
      assert States()[client.id] == client.Model();
      if client.alive {
        client.PushAll(result);
        assert States() == old(States())[client.id := client.Model()];
      }
    }

    /** The outer dispatch loop. */
    method DispatchLoop(result: RecvResult)
      requires Wired()
      modifies queues
      ensures States() == Dispatch(old(States()), Ids(clients), result)
    {
      ghost var ids := Ids(clients);
      for i := 0 to |clients|
        invariant States() == Dispatch(old(States()), ids[..i], result)
      {
        assert Known(clients[i]) && ids[i] == clients[i].id;
        assert ids[..i + 1][..i] == ids[..i];
        DeliverTo(clients[i], result);
      }
      assert ids[..|clients|] == ids;
    }

    method DispatchToAll(result: RecvResult)
      requires Wired() && pump == Receiving
      modifies `pump, queues
      ensures Wired() && Model() == Step(old(Model()), Result(result))
    {
      DispatchLoop(result);
      pump := if Terminal(result) then Ended else Pruning;
    }

    /** The rest of a pump step once the physical receive has returned. */
    method DispatchResult(result: RecvResult) returns (err: ErrorCode)
      requires Valid() && pump == Receiving
      modifies `pump, `history, queues
      ensures Valid() && history == old(history) + [Result(result)]
      ensures PumpPart(history) == PumpPart(old(history)) + [Result(result)]
      ensures err == if Terminal(result) then result.error else Success
      ensures pump == if Terminal(result) then Ended else Pruning
    {
      DispatchToAll(result);
      Record(Result(result));
      PumpPartSnoc(old(history), Result(result));
      if result.Failed? {
        return if result.error == SessionReset then Success else result.error;
      }
      return Success;
    }

    /** A call of some logical client, if it can happen now. */
    method Interfere(call: ClientCall)
      requires Valid() && Known(call.state)
      modifies `clients, `history, registry.Values, queues
      ensures Valid() && old(history) <= history && PumpPart(history) == PumpPart(old(history))
    {
      var state := call.state;
      assert state in registry.Values && state.queue in queues;
      if state.alive {
        match call
        case Subscribing(_, topics, err) => Subscribe(state, topics, err);
        case Entering(_) => var _ := RecvStart(state);
        case Waking(_) =>
          if state.queue.woken > 0 {
            var _ := RecvWake(state);
          }
        case Detaching(_) => Detach(state);
        case Expiring(_) =>
          if state.queue.waiting == state.queue.woken == 0 {
            Expire(state);
          }
      }
      PumpPartOfCall(old(history), history);
    }

    /** What the logical clients do while the pump is suspended. */
    method Suspend(calls: seq<ClientCall>)
      requires Valid() && forall j :: 0 <= j < |calls| ==> Known(calls[j].state)
      modifies `clients, `history, registry.Values, queues
      ensures Valid() && old(history) <= history && PumpPart(history) == PumpPart(old(history))
    {
      for j := 0 to |calls|
        invariant Valid() && old(history) <= history && PumpPart(history) == PumpPart(old(history))
      {
        Interfere(calls[j]);
      }
    }

    /** One pump step: prune, suspend in the physical receive, dispatch its result. */
    method PumpOne(result: RecvResult, meanwhile: seq<ClientCall>) returns (err: ErrorCode)
      requires Valid() && pump == Pruning
      requires forall j :: 0 <= j < |meanwhile| ==> Known(meanwhile[j].state)
      modifies `clients, `pump, `history, registry.Values, queues
      ensures Valid() && old(history) <= history
      ensures PumpPart(history) == PumpPart(old(history)) + [Prune] + [Result(result)]
      ensures err == if Terminal(result) then result.error else Success
      ensures pump == if Terminal(result) then Ended else Pruning
    {
      RemoveExpiredClients();
      Suspend(meanwhile);
      err := DispatchResult(result);
    }

    /** The pump loop fed with a sequence of physical results, while the logical clients make any calls
        whenever it is suspended: it consumes the results up to and including the first error other
        than a session reset, and dispatches each once. */
    method AsyncRun(results: seq<RecvResult>, meanwhile: seq<seq<ClientCall>>) returns (consumed: nat, err: ErrorCode)
      requires Valid() && pump == Pruning && |meanwhile| == |results|
      requires forall i, j :: 0 <= i < |meanwhile| && 0 <= j < |meanwhile[i]| ==> Known(meanwhile[i][j].state)
      modifies `clients, `pump, `history, registry.Values, queues
      ensures Valid() && consumed <= |results| && old(history) <= history
      ensures forall i :: 0 <= i < consumed - 1 ==> !Terminal(results[i])
      ensures err != Success <==> consumed > 0 && Terminal(results[consumed - 1])
      ensures err == Success ==> consumed == |results|
      ensures PumpPart(history) == PumpPart(old(history)) + PumpEvents(results[..consumed])
    {
      consumed, err := 0, Success;
      while consumed < |results| && err == Success
        invariant Valid() && consumed <= |results| && old(history) <= history
        invariant pump == if err == Success then Pruning else Ended
        invariant forall i :: 0 <= i < consumed - 1 ==> !Terminal(results[i])
        invariant err != Success <==> consumed > 0 && Terminal(results[consumed - 1])
        invariant PumpPart(history) == PumpPart(old(history)) + PumpEvents(results[..consumed])
        decreases |results| - consumed
      {
        err := PumpOne(results[consumed], meanwhile[consumed]);
        assert results[..consumed + 1][..consumed] == results[..consumed];
        consumed := consumed + 1;
      }
    }
  }
}
