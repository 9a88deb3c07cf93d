/** The button: its command loop, and the number of handler starts over a whole run of the shared
    connection. */
module Button {
  import opened Mqtt
  import opened TopicList
  import opened EntityConfig
  import opened Entity
  import M = Multiplexer
  import Topics
  import RecvQueue

  const COMPONENT := "button"
  const DEFAULT_PRESS := "PRESS"

  /** The factory's defaults for the properties the button and its setup read. */
  function DefaultSets(uniqueId: string): Sets {
    [ (Property("unique_id", ""), uniqueId),
      (PAYLOAD_PRESS, DEFAULT_PRESS),
      (COMMAND_TOPIC, Topics.DefaultTopic(COMPONENT, uniqueId, Topics.Command)),
      (AVAILABILITY_TOPIC, Topics.DefaultTopic(COMPONENT, uniqueId, Topics.Availability)) ]
  }

  /** Required properties are read without a check; a missing one is a configuration error. */
  ghost predicate Configured(spec: Spec) {
    && spec.WellConfigured()
    && At(spec.cfg, COMMAND_TOPIC).Some? && At(spec.cfg, PAYLOAD_PRESS).Some?
  }

  predicate IsPress(spec: Spec, r: RecvResult)
    requires At(spec.cfg, COMMAND_TOPIC).Some? && At(spec.cfg, PAYLOAD_PRESS).Some?
  {
    r == Received(Publish(At(spec.cfg, COMMAND_TOPIC).value, At(spec.cfg, PAYLOAD_PRESS).value))
  }

  function Presses(spec: Spec, rs: seq<RecvResult>): nat
    requires At(spec.cfg, COMMAND_TOPIC).Some? && At(spec.cfg, PAYLOAD_PRESS).Some?
  {
    if rs == [] then 0
    else Presses(spec, rs[..|rs| - 1]) + (if IsPress(spec, rs[|rs| - 1]) then 1 else 0)
  }

  lemma {:induction false} PressesConcat(spec: Spec, a: seq<RecvResult>, b: seq<RecvResult>)
    requires Configured(spec)
    ensures Presses(spec, a + b) == Presses(spec, a) + Presses(spec, b)
  {
    if b == [] {
      assert a + b == a;
    } else {
      assert (a + b)[..|a + b| - 1] == a + b[..|b| - 1];
      PressesConcat(spec, a, b[..|b| - 1]);
    }
  }

  lemma OnePress(spec: Spec, r: RecvResult)
    requires Configured(spec)
    ensures Presses(spec, [r]) == if IsPress(spec, r) then 1 else 0
  {
    assert [r][..0] == [];
  }

  /** Among the results taken in one receive call, only the one it returns can be a press. */
  lemma {:induction false} ReceiveTakesNoHiddenPress(
    spec: Spec, acts: seq<Act>, ops: seq<Op>, incoming: seq<RecvResult>, reply: Replies, n: nat)
    requires Configured(spec)
    ensures var o := ReceiveFrom(acts, ops, incoming, reply, n);
            Presses(spec, Taken(incoming, o.left)) == if o.result.Some? && IsPress(spec, o.result.value) then 1 else 0
    decreases |incoming|
  {
    if incoming != [] {
      var (more, result) := Handle(ops, incoming[0], reply, n);
      var left := ReceiveFrom(acts, ops, incoming, reply, n).left;
      OnePress(spec, incoming[0]);
      if result == None {
        ReceiveTakesNoHiddenPress(spec, acts + more, ops, incoming[1..], reply, n + |more| - 1);
        ReceiveConsumes(acts + more, ops, incoming[1..], reply, n + |more| - 1);
        TakenMore(incoming, left);
        PressesConcat(spec, [incoming[0]], Taken(incoming[1..], left));
      } else {
        TakenOne(incoming);
      }
    }
  }

  class ButtonEntity {
    const base: EntityBase
    const hasHandler: bool
    /** Handlers started so far; they run detached. */
    var starts: nat

    constructor (base: EntityBase, hasHandler: bool)
      ensures this.base == base && this.hasHandler == hasHandler && starts == 0
    {
      this.base, this.hasHandler, starts := base, hasHandler, 0;
    }

    function Starts(rs: seq<RecvResult>): nat
      requires At(base.spec.cfg, COMMAND_TOPIC).Some? && At(base.spec.cfg, PAYLOAD_PRESS).Some?
    {
      if hasHandler then Presses(base.spec, rs) else 0
    }

    /** One turn of the command loop: receive, and start the handler if it is a press. */
    method RunOne() returns (res: Option<RecvResult>)
      requires Configured(base.spec)
      modifies this`starts, base.client
      ensures res == None ==> base.client.incoming == []
      ensures NeverReset(base.client.reply) ==> res !in {Some(Failed(SessionReset)), Some(Failed(Success))}
      ensures Consumed(old(base.client.incoming), base.client.incoming)
      ensures res.Some? ==> |base.client.incoming| < |old(base.client.incoming)|
      ensures Ended(old(base.client.incoming), old(base.client.calls), ErrorOf(res))
      ensures starts == old(starts) + Starts(Taken(old(base.client.incoming), base.client.incoming))
    {
      ghost var incoming, n := base.client.incoming, base.client.calls;
      ReceiveConsumes([], base.spec.SetupOps(), incoming, base.client.reply, n);
      ReceiveTakesNoHiddenPress(base.spec, [], base.spec.SetupOps(), incoming, base.client.reply, n);
      if NeverReset(base.client.reply) {
        ReceiveAbsorbsResets([], base.spec.SetupOps(), incoming, base.client.reply, n);
      }
      ReceiveEndsAtStop([], base.spec.SetupOps(), incoming, base.client.reply, n);
      res := base.Recv();
      if res.Some? && res.value.Received? {
        var packet := res.value.packet;
        if packet.Publish?
          && packet.topic == At(base.spec.cfg, COMMAND_TOPIC).value
          && packet.payload == At(base.spec.cfg, PAYLOAD_PRESS).value
        {
          if hasHandler {
            starts := starts + 1;
          }
        }
      }
    }

    /** The results taken since the client had `all`, with `n` calls made, end with this error, the
        first of a terminal result or of a failed replay; without one, nothing ended the loop. */
    ghost predicate Ended(all: seq<RecvResult>, n: nat, err: Option<ErrorCode>)
      requires Configured(base.spec) && Consumed(all, base.client.incoming)
      reads base.client
    {
      var taken := Taken(all, base.client.incoming);
      && EndsWith(base.spec.SetupOps(), taken, base.client.reply, n, err)
      && base.client.calls == Calls(base.spec.SetupOps(), taken, base.client.reply, n)
    }

    /** The command loop: it returns the first error the entity could not absorb, having consumed the
        results up to the one that caused it, or stays suspended once its client has nothing more. It
        starts the handler once per press it consumed. */
    method Run() returns (err: Option<ErrorCode>)
      requires Configured(base.spec)
      modifies this`starts, base.client
      ensures NeverReset(base.client.reply) ==> err !in {Some(SessionReset), Some(Success)}
      ensures err == None ==> base.client.incoming == []
      ensures Consumed(old(base.client.incoming), base.client.incoming)
      ensures Ended(old(base.client.incoming), old(base.client.calls), err)
      ensures starts == old(starts) + Starts(Taken(old(base.client.incoming), base.client.incoming))
    {
      ghost var all, n, reply := base.client.incoming, base.client.calls, base.client.reply;
      NothingTaken(base.spec, all);
      while true
        invariant Consumed(all, base.client.incoming)
        invariant Ended(all, n, None)
        invariant starts == old(starts) + Starts(Taken(all, base.client.incoming))
        decreases |base.client.incoming|
      {
        ghost var mid := base.client.incoming;
        var res := RunOne();
        TurnEnds(base.spec, all, mid, base.client.incoming, reply, n, ErrorOf(res));
        if res == None {
          return None;
        }
        if res.value.Failed? {
          return Some(res.value.error);
        }
      }
    }
  }

  lemma NothingTaken(spec: Spec, all: seq<RecvResult>)
    requires Configured(spec)
    ensures Consumed(all, all) && Taken(all, all) == [] && Presses(spec, Taken(all, all)) == 0
  {
  }

  lemma TakenSplit(all: seq<RecvResult>, mid: seq<RecvResult>, left: seq<RecvResult>)
    requires Consumed(all, mid) && Consumed(mid, left)
    ensures Consumed(all, left) && Taken(all, left) == Taken(all, mid) + Taken(mid, left)
  {
  }

  /** A turn that takes `mid` down to `left` continues the loop that took `all` down to `mid`. */
  lemma TurnEnds(
    spec: Spec, all: seq<RecvResult>, mid: seq<RecvResult>, left: seq<RecvResult>, reply: Replies, n: nat,
    err: Option<ErrorCode>)
    requires Configured(spec) && Consumed(all, mid) && Consumed(mid, left)
    requires EndsWith(spec.SetupOps(), Taken(all, mid), reply, n, None)
    requires EndsWith(spec.SetupOps(), Taken(mid, left), reply, Calls(spec.SetupOps(), Taken(all, mid), reply, n), err)
    ensures Consumed(all, left) && EndsWith(spec.SetupOps(), Taken(all, left), reply, n, err)
    ensures Calls(spec.SetupOps(), Taken(all, left), reply, n) ==
            Calls(spec.SetupOps(), Taken(mid, left), reply, Calls(spec.SetupOps(), Taken(all, mid), reply, n))
    ensures Presses(spec, Taken(all, left)) == Presses(spec, Taken(all, mid)) + Presses(spec, Taken(mid, left))
  {
    TakenSplit(all, mid, left);
    StopsConcat(spec.SetupOps(), Taken(all, mid), Taken(mid, left), reply, n);
    EndsWithConcat(spec.SetupOps(), Taken(all, mid), Taken(mid, left), reply, n, err);
    PressesConcat(spec, Taken(all, mid), Taken(mid, left));
  }

  // ---------- End to end ----------

  /** The pump received this press while `c` was registered with that topic. */
  function PressEvents(es: seq<M.Event>, c: M.ClientId, topic: string, payload: string): nat {
    if es == [] then 0
    else
      var init, last := es[..|es| - 1], es[|es| - 1];
      PressEvents(init, c, topic, payload) +
      if last == M.Result(Received(Publish(topic, payload))) && M.RegisteredAfter(init, c) && M.SubscribedIn(init, c, topic)
      then 1 else 0
  }

  lemma {:induction false} PressEventsAreDue(es: seq<M.Event>, c: M.ClientId, spec: Spec)
    requires Configured(spec)
    ensures Presses(spec, M.DueResults(es, c)) ==
            PressEvents(es, c, At(spec.cfg, COMMAND_TOPIC).value, At(spec.cfg, PAYLOAD_PRESS).value)
  {
    if es != [] {
      var init, last := es[..|es| - 1], es[|es| - 1];
      PressEventsAreDue(init, c, spec);
      if last.Result? && M.Due(init, c, last.r) {
        PressesConcat(spec, M.DueResults(init, c), [last.r]);
        OnePress(spec, last.r);
      } else {
        assert M.DueResults(es, c) == M.DueResults(init, c);
      }
    }
  }

  /** Every prefix of what is due to a client was already what was due at some earlier point. */
  lemma {:induction false} DuePrefix(es: seq<M.Event>, c: M.ClientId, n: nat) returns (j: nat)
    requires n <= |M.DueResults(es, c)|
    ensures j <= |es| && M.DueResults(es[..j], c) == M.DueResults(es, c)[..n]
  {
    if n == |M.DueResults(es, c)| {
      assert es[..|es|] == es;
      return |es|;
    }
    var init := es[..|es| - 1];
    j := DuePrefix(init, c, n);
    assert init[..j] == es[..j];
  }

  /** Over any run of the shared connection, a button that was handed `c`'s results and consumed
      `taken` of them before its first unrecovered error has started its handler exactly as often as
      the pump received a press for it, up to the point the last consumed result arrived, while `c`
      was registered with the command topic. Session resets in between change nothing. */
  lemma EndToEndPressCount(es: seq<M.Event>, c: M.ClientId, spec: Spec, taken: seq<RecvResult>) returns (j: nat)
    requires M.ValidRun(es) && c in M.Run(es).states && Configured(spec)
    requires taken <= M.Run(es).states[c].q.popped
    ensures j <= |es| && M.DueResults(es[..j], c) == taken
    ensures Presses(spec, taken) ==
            PressEvents(es[..j], c, At(spec.cfg, COMMAND_TOPIC).value, At(spec.cfg, PAYLOAD_PRESS).value)
  {
    M.Conservation(es, c);
    assert taken == M.DueResults(es, c)[..|taken|];
    j := DuePrefix(es, c, |taken|);
    PressEventsAreDue(es[..j], c, spec);
  }

  /** The button object run on the results the multiplexer handed to its client: what it consumed, up
      to the result that ended its loop, is what was due to the client at some point of the run, and
      its handler was started for exactly the presses the pump received by then. */
  method RunOnShared(ghost es: seq<M.Event>, ghost c: M.ClientId, button: ButtonEntity)
    returns (err: Option<ErrorCode>, ghost j: nat)
    requires M.ValidRun(es) && c in M.Run(es).states && Configured(button.base.spec)
    requires button.hasHandler && button.base.client.incoming == M.Run(es).states[c].q.popped
    modifies button`starts, button.base.client
    ensures j <= |es|
    ensures Consumed(M.Run(es).states[c].q.popped, button.base.client.incoming)
    ensures M.DueResults(es[..j], c) == Taken(M.Run(es).states[c].q.popped, button.base.client.incoming)
    ensures button.Ended(M.Run(es).states[c].q.popped, old(button.base.client.calls), err)
    ensures err == None ==> button.base.client.incoming == []
    ensures var cfg := button.base.spec.cfg;
            button.starts == old(button.starts) +
            PressEvents(es[..j], c, At(cfg, COMMAND_TOPIC).value, At(cfg, PAYLOAD_PRESS).value)
  {
    ghost var all := button.base.client.incoming;
    err := button.Run();
    j := EndToEndPressCount(es, c, button.base.spec, Taken(all, button.base.client.incoming));
  }

  // ---------- No cross-talk between default topics ----------

  /** `c` only ever subscribed to its own default command topic. */
  ghost predicate OnlyOwnCommands(es: seq<M.Event>, c: M.ClientId, component: string, uniqueId: string) {
    forall i, name :: 0 <= i < |es| && es[i].SubscribeOk? && es[i].c == c && HasName(es[i].topics, name) ==>
      name == Topics.DefaultTopic(component, uniqueId, Topics.Command)
  }

  /** A client subscribed by default topics is never handed a publish on any default topic of an
      entity that differs in component or id. */
  lemma NoCrossTalk(
    es: seq<M.Event>, c: M.ClientId, component: string, uniqueId: string,
    otherComponent: string, otherId: string, kind: Topics.Kind, payload: string)
    requires M.ValidRun(es) && c in M.Run(es).states
    requires OnlyOwnCommands(es, c, component, uniqueId)
    requires Topics.SlashFree(component) && Topics.SlashFree(otherComponent)
    requires component != otherComponent || uniqueId != otherId
    ensures var q := M.Run(es).states[c].q;
            Received(Publish(Topics.DefaultTopic(otherComponent, otherId, kind), payload)) !in q.popped + q.queue
  {
    M.Conservation(es, c);
    var r := Received(Publish(Topics.DefaultTopic(otherComponent, otherId, kind), payload));
    if r in M.DueResults(es, c) {
      var i := DueIsSubscribed(es, c, r);
      Topics.DefaultTopicInjective(component, uniqueId, Topics.Command, otherComponent, otherId, kind);
    }
  }

  lemma {:induction false} DueIsSubscribed(es: seq<M.Event>, c: M.ClientId, r: RecvResult) returns (i: nat)
    requires r in M.DueResults(es, c) && r.Received? && r.packet.Publish?
    ensures i < |es| && es[i].SubscribeOk? && es[i].c == c && HasName(es[i].topics, r.packet.topic)
  {
    var init := es[..|es| - 1];
    if r in M.DueResults(init, c) {
      i := DueIsSubscribed(init, c, r);
    } else {
      i :| 0 <= i < |init| && init[i].SubscribeOk? && init[i].c == c && HasName(init[i].topics, r.packet.topic);
    }
  }

  /** The subscription is the configured command topic. */
  function CommandTopics(cfg: Object, qos: nat): seq<TopicSubopts>
    requires At(cfg, COMMAND_TOPIC).Some?
  {
    [TopicSubopts(At(cfg, COMMAND_TOPIC).value, qos)]
  }

  /** What the factory creates when no property is set by hand. */
  function DefaultSpec(uniqueId: string, json: string, qos: nat): Spec
    requires SetAll(DefaultSets(uniqueId)).Some?
    requires At(SetAll(DefaultSets(uniqueId)).value, COMMAND_TOPIC).Some?
  {
    var cfg := SetAll(DefaultSets(uniqueId)).value;
    Spec(COMPONENT, uniqueId, json, cfg, CommandTopics(cfg, qos))
  }

  lemma DefaultsSet(uniqueId: string)
    ensures SetAll(DefaultSets(uniqueId)).Some?
    ensures FlatStore(DefaultSets(uniqueId)) ==
            map[Property("unique_id", "") := uniqueId,
                Property("payload_press", "") := "PRESS",
                Property("command_topic", "") := "homeassistant/button/" + uniqueId + "/set",
                Property("topic", "availability") := "homeassistant/button/" + uniqueId + "/availability"]
    ensures NoClash(FlatStore(DefaultSets(uniqueId)).Keys)
  {
    var sets := DefaultSets(uniqueId);
    assert "homeassistant/" + COMPONENT + "/" == "homeassistant/button/";
    Topics.DefaultTopicsAre(COMPONENT, uniqueId);
    assert sets[..3][..2] == sets[..2] && sets[..2][..1] == sets[..1] && sets[..1][..0] == [];
    assert FlatStore(sets[..1]) == map[][sets[0].0 := sets[0].1];
    assert FlatStore(sets[..2]) == FlatStore(sets[..1])[sets[1].0 := sets[1].1];
    assert FlatStore(sets[..3]) == FlatStore(sets[..2])[sets[2].0 := sets[2].1];
    assert FlatStore(sets) == FlatStore(sets[..3])[sets[3].0 := sets[3].1];
    SetAllHolds(sets);
  }

  lemma DefaultsRead(uniqueId: string)
    ensures SetAll(DefaultSets(uniqueId)).Some?
    ensures At(SetAll(DefaultSets(uniqueId)).value, COMMAND_TOPIC) == Some("homeassistant/button/" + uniqueId + "/set")
    ensures At(SetAll(DefaultSets(uniqueId)).value, PAYLOAD_PRESS) == Some("PRESS")
  {
    DefaultsSet(uniqueId);
    SetAllHolds(DefaultSets(uniqueId));
    var m := FlatStore(DefaultSets(uniqueId));
    assert COMMAND_TOPIC in m && PAYLOAD_PRESS in m;
  }

  /** The defaults form a usable configuration: the button listens for "PRESS" on its own command topic,
      the one topic its setup subscribes, and announces itself on its own discovery and availability
      topics. */
  lemma DefaultsConfigured(uniqueId: string, json: string, qos: nat)
    ensures SetAll(DefaultSets(uniqueId)).Some? && At(SetAll(DefaultSets(uniqueId)).value, COMMAND_TOPIC).Some?
    ensures var spec := DefaultSpec(uniqueId, json, qos);
            var prefix := "homeassistant/button/" + uniqueId;
            && Configured(spec)
            && spec.SetupOps() == [
                 PublishOp(prefix + "/config", json, true),
                 SubscribeOp([TopicSubopts(prefix + "/set", qos)]),
                 PublishOp(prefix + "/availability", "online", true)]
            && spec.AvailabilityOps(false) == [PublishOp(prefix + "/availability", "offline", true)]
            && forall r :: IsPress(spec, r) <==> r == Received(Publish(prefix + "/set", "PRESS"))
  {
    var sets := DefaultSets(uniqueId);
    DefaultsRead(uniqueId);
    DefaultsSet(uniqueId);
    var m := FlatStore(sets);
    assert m.Keys + {AVAILABILITY_TOPIC} == m.Keys;
    var spec := DefaultSpec(uniqueId, json, qos);
    SetupFollowsSets(spec, sets);
    AvailabilityFollowsSets(spec, sets, false);
    assert "homeassistant/" + COMPONENT + "/" == "homeassistant/button/";
  }
}
