/** Entities over a client: setup, its replay after a session reset, and the button's command loop. */
module Entity {
  import opened Mqtt
  import opened TopicList
  import opened EntityConfig
  import Topics

  /** One call an entity makes on its client. Discovery and availability are published retained. */
  datatype Op = PublishOp(topic: string, payload: string, retain: bool) | SubscribeOp(topics: seq<TopicSubopts>)

  /** What an entity and its client do, in order: a result is taken, a call completes. */
  datatype Act = Took(r: RecvResult) | Did(op: Op, err: ErrorCode)

  /** The outcome of the n-th call on the client. */
  type Replies = nat -> ErrorCode

  /** The client's own calls never report a session reset, as `Reconnect.CallsNeverReportReset` proves of
      the physical client's. */
  ghost predicate NeverReset(reply: Replies) {
    forall n :: reply(n) != SessionReset
  }

  /** What distinguishes one entity from another. `json` is its serialised configuration, `topics`
      its command subscriptions, empty for a state-only entity. */
  datatype Spec = Spec(component: string, uniqueId: string, json: string, cfg: Object, topics: seq<TopicSubopts>) {
    /** Reading the availability properties does not throw. */
    ghost predicate WellConfigured() {
      && Contains(cfg, AVAILABILITY_TOPIC).Some?
      && (Contains(cfg, AVAILABILITY_TOPIC).value ==> At(cfg, AVAILABILITY_TOPIC).Some?)
      && (Contains(cfg, PAYLOAD_AVAILABLE) == Some(true) ==> At(cfg, PAYLOAD_AVAILABLE).Some?)
      && (Contains(cfg, PAYLOAD_NOT_AVAILABLE) == Some(true) ==> At(cfg, PAYLOAD_NOT_AVAILABLE).Some?)
    }

    function AvailabilityPayload(online: bool): string
      requires WellConfigured() && Contains(cfg, AVAILABILITY_TOPIC).value
    {
      var prop := if online then PAYLOAD_AVAILABLE else PAYLOAD_NOT_AVAILABLE;
      if Contains(cfg, prop).value then At(cfg, prop).value else if online then "online" else "offline"
    }

    function DiscoveryOp(): Op {
      PublishOp(Topics.DefaultTopic(component, uniqueId, Topics.Discovery), json, true)
    }

    function SubscribeOps(): seq<Op> {
      if topics == [] then [] else [SubscribeOp(topics)]
    }

    function AvailabilityOps(online: bool): seq<Op>
      requires WellConfigured()
    {
      if Contains(cfg, AVAILABILITY_TOPIC).value
      then [PublishOp(At(cfg, AVAILABILITY_TOPIC).value, AvailabilityPayload(online), true)]
      else []
    }

    /** Discovery, then subscribe, then availability. */
    function SetupOps(): seq<Op>
      requires WellConfigured()
    {
      [DiscoveryOp()] + SubscribeOps() + AvailabilityOps(true)
    }
  }

  // ---------- What a setup publishes ----------

  /** The payload an availability update stands for, from the properties that were set. */
  function PayloadSet(m: map<Property, string>, online: bool): string {
    match online
    case true =>
      var p := Property("payload_available", "availability");
      if p in m then m[p] else "online"
    case false =>
      var p := Property("payload_not_available", "availability");
      if p in m then m[p] else "offline"
  }

  /** After any string sets without clashes, an availability update publishes on the topic that was set,
      retained, the payload that was set for that state or the state's default; and nothing when no
      topic was set. */
  lemma AvailabilityFollowsSets(spec: Spec, sets: Sets, online: bool)
    requires SetAll(sets) == Some(spec.cfg) && NoClash(FlatStore(sets).Keys + {AVAILABILITY_TOPIC})
    ensures spec.WellConfigured()
    ensures spec.AvailabilityOps(online) ==
            if AVAILABILITY_TOPIC in FlatStore(sets)
            then [PublishOp(FlatStore(sets)[AVAILABILITY_TOPIC], PayloadSet(FlatStore(sets), online), true)]
            else []
  {
    var m := FlatStore(sets);
    forall p | p in {AVAILABILITY_TOPIC, PAYLOAD_AVAILABLE, PAYLOAD_NOT_AVAILABLE}
      ensures Contains(spec.cfg, p) == Some(p in m) && (p in m ==> At(spec.cfg, p) == Some(m[p]))
    {
      NestedNoClash(m.Keys, p);
      UnsetIsAbsent(sets, p);
      SetAllHolds(sets);
    }
  }

  /** Properties of the availability object clash with nothing its topic does not clash with. */
  lemma NestedNoClash(props: set<Property>, p: Property)
    requires NoClash(props + {AVAILABILITY_TOPIC}) && p.objKey == AVAILABILITY_TOPIC.objKey
    ensures NoClash(props + {p}) && NoClash(props)
  {
    forall q, q' | q in props + {p} && q' in props + {p} ensures !Clash(q, q') {
      assert Clash(q, p) <==> Clash(q, AVAILABILITY_TOPIC);
    }
  }

  /** A setup announces the entity on its discovery topic with its configuration, retained; subscribes its
      command topics if it has any; and announces it as available, in that order. */
  lemma SetupFollowsSets(spec: Spec, sets: Sets)
    requires SetAll(sets) == Some(spec.cfg) && NoClash(FlatStore(sets).Keys + {AVAILABILITY_TOPIC})
    ensures spec.WellConfigured()
    ensures spec.SetupOps() ==
            [PublishOp("homeassistant/" + spec.component + "/" + spec.uniqueId + "/config", spec.json, true)]
            + (if spec.topics == [] then [] else [SubscribeOp(spec.topics)])
            + (if AVAILABILITY_TOPIC in FlatStore(sets)
               then [PublishOp(FlatStore(sets)[AVAILABILITY_TOPIC], PayloadSet(FlatStore(sets), true), true)]
               else [])
  {
    AvailabilityFollowsSets(spec, sets, true);
    Topics.DefaultTopicsAre(spec.component, spec.uniqueId);
  }

  // ---------- Specification of a receive call ----------

  /** Perform the calls in order up to the first that fails. */
  function Perform(ops: seq<Op>, reply: Replies, n: nat): (acts: seq<Act>)
    ensures |acts| <= |ops|
  {
    if ops == [] then []
    else if reply(n) != Success then [Did(ops[0], reply(n))]
    else [Did(ops[0], Success)] + Perform(ops[1..], reply, n + 1)
  }

  /** The error of the first call that fails. */
  function FirstError(ops: seq<Op>, reply: Replies, n: nat): ErrorCode {
    if ops == [] then Success
    else if reply(n) != Success then reply(n)
    else FirstError(ops[1..], reply, n + 1)
  }

  /** `result` is absent when the queued results run out and the call stays suspended; `calls` counts
      client calls. */
  datatype Outcome = Outcome(acts: seq<Act>, result: Option<RecvResult>, left: seq<RecvResult>, calls: nat)

  /** Results are taken from the front. */
  predicate Consumed(all: seq<RecvResult>, left: seq<RecvResult>) {
    |left| <= |all| && left == all[|all| - |left|..]
  }

  function Taken(all: seq<RecvResult>, left: seq<RecvResult>): seq<RecvResult> {
    if |left| <= |all| then all[..|all| - |left|] else []
  }

  lemma TakenOne(all: seq<RecvResult>)
    requires all != []
    ensures Consumed(all, all[1..]) && Taken(all, all[1..]) == [all[0]]
  {
  }

  lemma TakenMore(all: seq<RecvResult>, left: seq<RecvResult>)
    requires all != [] && Consumed(all[1..], left)
    ensures Consumed(all, left) && Taken(all, left) == [all[0]] + Taken(all[1..], left)
  {
  }

  /** What the receive loop does with one result: the acts, and the value returned if it returns. */
  function Handle(ops: seq<Op>, r: RecvResult, reply: Replies, n: nat): (seq<Act>, Option<RecvResult>) {
    if r.Received? || Terminal(r) then ([Took(r)], Some(r))
    else if r.error == SessionReset then
      var err := FirstError(ops, reply, n);
      ([Took(r)] + Perform(ops, reply, n), if err == Success then None else Some(Failed(err)))
    else ([Took(r)], None)
  }

  /** The receive loop with `acts` already done: it deals with the results one by one until one
      makes it return. `n` counts client calls. */
  function ReceiveFrom(acts: seq<Act>, ops: seq<Op>, incoming: seq<RecvResult>, reply: Replies, n: nat): Outcome
    decreases |incoming|
  {
    if incoming == [] then Outcome(acts, None, [], n)
    else
      var (more, result) := Handle(ops, incoming[0], reply, n);
      if result.Some? then Outcome(acts + more, result, incoming[1..], n + |more| - 1)
      else ReceiveFrom(acts + more, ops, incoming[1..], reply, n + |more| - 1)
  }

  lemma ReceiveNext(acts: seq<Act>, ops: seq<Op>, incoming: seq<RecvResult>, reply: Replies, n: nat)
    requires incoming != []
    ensures var (more, result) := Handle(ops, incoming[0], reply, n);
            ReceiveFrom(acts, ops, incoming, reply, n) ==
            if result.Some? then Outcome(acts + more, result, incoming[1..], n + |more| - 1)
            else ReceiveFrom(acts + more, ops, incoming[1..], reply, n + |more| - 1)
  {
  }

  /** One receive call of the entity on the results its client has for it. */
  function Receive(ops: seq<Op>, incoming: seq<RecvResult>, reply: Replies, n: nat): Outcome {
    ReceiveFrom([], ops, incoming, reply, n)
  }

  /** A receive call takes a prefix of what its client had, and stays suspended only with nothing left. */
  lemma {:induction false} ReceiveConsumes(
    acts: seq<Act>, ops: seq<Op>, incoming: seq<RecvResult>, reply: Replies, n: nat)
    ensures var o := ReceiveFrom(acts, ops, incoming, reply, n);
            Consumed(incoming, o.left) && if o.result == None then o.left == [] else |o.left| < |incoming|
    decreases |incoming|
  {
    if incoming != [] {
      var (more, result) := Handle(ops, incoming[0], reply, n);
      if result == None {
        ReceiveConsumes(acts + more, ops, incoming[1..], reply, n + |more| - 1);
        TakenMore(incoming, ReceiveFrom(acts, ops, incoming, reply, n).left);
      } else {
        TakenOne(incoming);
      }
    }
  }

  // ---------- The protocol a receive call follows ----------

  /** Idle, replaying with the calls still to be made, or broken by a failed call. */
  datatype Phase = Idle | Replaying(pending: seq<Op>) | Broken(err: ErrorCode) | Illegal

  /** A result may be taken only while idle; a session reset starts exactly one replay, whose calls
      come in order; a failed call ends it. */
  function Advance(phase: Phase, a: Act, ops: seq<Op>): Phase {
    match (phase, a)
    case (Idle, Took(Failed(SessionReset))) => if ops == [] then Idle else Replaying(ops)
    case (Idle, Took(_)) => Idle
    case (Replaying(pending), Did(op, err)) =>
      if pending == [] || op != pending[0] then Illegal
      else if err != Success then Broken(err)
      else if |pending| == 1 then Idle
      else Replaying(pending[1..])
    case _ => Illegal
  }

  function After(phase: Phase, acts: seq<Act>, ops: seq<Op>): Phase
    decreases |acts|
  {
    if acts == [] then phase else After(Advance(phase, acts[0], ops), acts[1..], ops)
  }

  lemma {:induction false} AfterConcat(phase: Phase, a: seq<Act>, b: seq<Act>, ops: seq<Op>)
    ensures After(phase, a + b, ops) == After(After(phase, a, ops), b, ops)
    decreases |a|
  {
    if a == [] {
      assert a + b == b;
    } else {
      assert (a + b)[1..] == a[1..] + b;
      AfterConcat(Advance(phase, a[0], ops), a[1..], b, ops);
    }
  }

  /** A replay either completes or breaks with its first error. */
  lemma {:induction false} PerformFollows(pending: seq<Op>, ops: seq<Op>, reply: Replies, n: nat)
    requires pending != []
    ensures After(Replaying(pending), Perform(pending, reply, n), ops) ==
            if FirstError(pending, reply, n) == Success then Idle else Broken(FirstError(pending, reply, n))
  {
    var acts := Perform(pending, reply, n);
    if reply(n) == Success && |pending| > 1 {
      PerformFollows(pending[1..], ops, reply, n + 1);
      assert acts[1..] == Perform(pending[1..], reply, n + 1);
    }
  }

  /** The acts take exactly these results, in order, and their calls get the client's answers from
      number `n` up to `n'`. */
  predicate Accounts(acts: seq<Act>, rs: seq<RecvResult>, reply: Replies, n: nat, n': nat) {
    if acts == [] then rs == [] && n == n'
    else
      match acts[0]
      case Took(r) => rs != [] && r == rs[0] && Accounts(acts[1..], rs[1..], reply, n, n')
      case Did(_, err) => err == reply(n) && Accounts(acts[1..], rs, reply, n + 1, n')
  }

  /** What the caller of one receive call can rely on: it took a prefix of what the client had and got
      the client's answers, and followed the protocol to the end. */
  ghost predicate Faithful(o: Outcome, incoming: seq<RecvResult>, ops: seq<Op>, reply: Replies, n: nat) {
    && Consumed(incoming, o.left)
    && Accounts(o.acts, Taken(incoming, o.left), reply, n, o.calls)
    && Follows(o, ops)
  }

  ghost predicate Follows(o: Outcome, ops: seq<Op>) {
    var phase := After(Idle, o.acts, ops);
    match o.result
    case None => phase == Idle && o.left == []
    case Some(Received(p)) => phase == Idle && o.acts != [] && o.acts[|o.acts| - 1] == Took(Received(p))
    case Some(Failed(e)) =>
      || phase == Broken(e)
      || (phase == Idle && o.acts != [] && o.acts[|o.acts| - 1] == Took(Failed(e)) && Terminal(Failed(e)))
  }

  lemma {:induction false} AccountsConcat(
    a: seq<Act>, rs: seq<RecvResult>, b: seq<Act>, ss: seq<RecvResult>, reply: Replies, n: nat, m: nat, n': nat)
    requires Accounts(a, rs, reply, n, m) && Accounts(b, ss, reply, m, n')
    ensures Accounts(a + b, rs + ss, reply, n, n')
    decreases |a|
  {
    if a == [] {
      assert a + b == b && rs + ss == ss;
    } else {
      assert (a + b)[1..] == a[1..] + b;
      if a[0].Took? {
        assert (rs + ss)[1..] == rs[1..] + ss;
        AccountsConcat(a[1..], rs[1..], b, ss, reply, n, m, n');
      } else {
        AccountsConcat(a[1..], rs, b, ss, reply, n + 1, m, n');
      }
    }
  }

  lemma {:induction false} PerformAccounts(ops: seq<Op>, reply: Replies, n: nat)
    ensures Accounts(Perform(ops, reply, n), [], reply, n, n + |Perform(ops, reply, n)|)
  {
    if ops != [] {
      var acts := Perform(ops, reply, n);
      if reply(n) == Success {
        PerformAccounts(ops[1..], reply, n + 1);
        assert acts[1..] == Perform(ops[1..], reply, n + 1);
      } else {
        assert acts[1..] == [];
      }
    }
  }

  lemma HandleAccounts(ops: seq<Op>, r: RecvResult, reply: Replies, n: nat)
    ensures var more := Handle(ops, r, reply, n).0; Accounts(more, [r], reply, n, n + |more| - 1)
  {
    var more := Handle(ops, r, reply, n).0;
    assert [r][1..] == [];
    if r == Failed(SessionReset) {
      PerformAccounts(ops, reply, n);
      assert more[1..] == Perform(ops, reply, n);
    } else {
      assert more[1..] == [];
    }
  }

  lemma {:induction false} ReceiveAccounts(
    acts: seq<Act>, ops: seq<Op>, incoming: seq<RecvResult>, reply: Replies, n: nat, had: seq<RecvResult>, first: nat)
    requires Accounts(acts, had, reply, first, n)
    ensures var o := ReceiveFrom(acts, ops, incoming, reply, n);
            Accounts(o.acts, had + Taken(incoming, o.left), reply, first, o.calls)
    decreases |incoming|
  {
    var o := ReceiveFrom(acts, ops, incoming, reply, n);
    if incoming == [] {
      assert had + Taken(incoming, o.left) == had;
    } else {
      var (more, result) := Handle(ops, incoming[0], reply, n);
      var n' := n + |more| - 1;
      HandleAccounts(ops, incoming[0], reply, n);
      AccountsConcat(acts, had, more, [incoming[0]], reply, first, n, n');
      if result == None {
        ReceiveAccounts(acts + more, ops, incoming[1..], reply, n', had + [incoming[0]], first);
        ReceiveConsumes(acts + more, ops, incoming[1..], reply, n');
        TakenMore(incoming, o.left);
        assert (had + [incoming[0]]) + Taken(incoming[1..], o.left) == had + Taken(incoming, o.left);
      } else {
        TakenOne(incoming);
      }
    }
  }

  lemma ReplayPhase(ops: seq<Op>, reply: Replies, n: nat)
    requires ops != []
    ensures After(Idle, [Took(Failed(SessionReset))] + Perform(ops, reply, n), ops) ==
            if FirstError(ops, reply, n) == Success then Idle else Broken(FirstError(ops, reply, n))
  {
    var acts := [Took(Failed(SessionReset))] + Perform(ops, reply, n);
    PerformFollows(ops, ops, reply, n);
    assert acts[1..] == Perform(ops, reply, n);
  }

  lemma {:induction false} ReceiveFollows(
    acts: seq<Act>, ops: seq<Op>, incoming: seq<RecvResult>, reply: Replies, n: nat)
    requires ops != [] && After(Idle, acts, ops) == Idle
    ensures Follows(ReceiveFrom(acts, ops, incoming, reply, n), ops)
    decreases |incoming|
  {
    if incoming != [] {
      var (more, result) := Handle(ops, incoming[0], reply, n);
      AfterConcat(Idle, acts, more, ops);
      if incoming[0] == Failed(SessionReset) {
        ReplayPhase(ops, reply, n);
      }
      if result == None {
        ReceiveFollows(acts + more, ops, incoming[1..], reply, n + |more| - 1);
      }
    }
  }

  /** Replay before traffic: in every receive call each session reset consumed causes exactly one
      setup in its order, nothing further is taken until that setup has fully succeeded, a packet
      is returned only then, and a failed setup call's error is the one returned. The results taken
      and the answers to the calls are the client's own, none skipped and none made up. */
  lemma ReplayBeforeTraffic(spec: Spec, incoming: seq<RecvResult>, reply: Replies, n: nat)
    requires spec.WellConfigured()
    ensures Faithful(Receive(spec.SetupOps(), incoming, reply, n), incoming, spec.SetupOps(), reply, n)
  {
    ReceiveConsumes([], spec.SetupOps(), incoming, reply, n);
    ReceiveAccounts([], spec.SetupOps(), incoming, reply, n, [], n);
    assert [] + Taken(incoming, Receive(spec.SetupOps(), incoming, reply, n).left) ==
           Taken(incoming, Receive(spec.SetupOps(), incoming, reply, n).left);
    ReceiveFollows([], spec.SetupOps(), incoming, reply, n);
  }

  lemma {:induction false} FirstErrorIsAReply(ops: seq<Op>, reply: Replies, n: nat)
    requires NeverReset(reply)
    ensures FirstError(ops, reply, n) != SessionReset
  {
    if ops != [] {
      FirstErrorIsAReply(ops[1..], reply, n + 1);
    }
  }

  /** The entity's receive never reports a session reset, nor success as an error. */
  lemma {:induction false} ReceiveAbsorbsResets(
    acts: seq<Act>, ops: seq<Op>, incoming: seq<RecvResult>, reply: Replies, n: nat)
    requires NeverReset(reply)
    ensures ReceiveFrom(acts, ops, incoming, reply, n).result !in {Some(Failed(SessionReset)), Some(Failed(Success))}
    decreases |incoming|
  {
    if incoming != [] {
      FirstErrorIsAReply(ops, reply, n);
      var (more, result) := Handle(ops, incoming[0], reply, n);
      if result == None {
        ReceiveAbsorbsResets(acts + more, ops, incoming[1..], reply, n + |more| - 1);
      }
    }
  }

  // ---------- Where a receive loop ends ----------

  /** The error a result ends the loop with, if it does: a terminal error its own, a session reset the
      first error of its replay. */
  function Stop(ops: seq<Op>, r: RecvResult, reply: Replies, n: nat): Option<ErrorCode> {
    if Terminal(r) then Some(r.error)
    else if r == Failed(SessionReset) && FirstError(ops, reply, n) != Success then Some(FirstError(ops, reply, n))
    else None
  }

  function NextCall(ops: seq<Op>, r: RecvResult, reply: Replies, n: nat): nat {
    if r == Failed(SessionReset) then n + |Perform(ops, reply, n)| else n
  }

  /** The number of client calls made once these results were dealt with. */
  function Calls(ops: seq<Op>, rs: seq<RecvResult>, reply: Replies, n: nat): nat
    decreases |rs|
  {
    if rs == [] then n else Calls(ops, rs[1..], reply, NextCall(ops, rs[0], reply, n))
  }

  /** None of these results ends the loop. */
  predicate Unstopped(ops: seq<Op>, rs: seq<RecvResult>, reply: Replies, n: nat)
    decreases |rs|
  {
    rs == [] || (Stop(ops, rs[0], reply, n) == None && Unstopped(ops, rs[1..], reply, NextCall(ops, rs[0], reply, n)))
  }

  /** With an error: the last of these results, and no earlier one, ends the loop with it. Without:
      none of them does. */
  predicate EndsWith(ops: seq<Op>, rs: seq<RecvResult>, reply: Replies, n: nat, err: Option<ErrorCode>) {
    match err
    case None => Unstopped(ops, rs, reply, n)
    case Some(_) =>
      && rs != [] && Unstopped(ops, rs[..|rs| - 1], reply, n)
      && Stop(ops, rs[|rs| - 1], reply, Calls(ops, rs[..|rs| - 1], reply, n)) == err
  }

  lemma {:induction false} StopsConcat(ops: seq<Op>, a: seq<RecvResult>, b: seq<RecvResult>, reply: Replies, n: nat)
    ensures Calls(ops, a + b, reply, n) == Calls(ops, b, reply, Calls(ops, a, reply, n))
    ensures Unstopped(ops, a + b, reply, n) <==>
            Unstopped(ops, a, reply, n) && Unstopped(ops, b, reply, Calls(ops, a, reply, n))
    decreases |a|
  {
    if a == [] {
      assert a + b == b;
    } else {
      assert (a + b)[1..] == a[1..] + b;
      StopsConcat(ops, a[1..], b, reply, NextCall(ops, a[0], reply, n));
    }
  }

  lemma EndsWithConcat(
    ops: seq<Op>, a: seq<RecvResult>, b: seq<RecvResult>, reply: Replies, n: nat, err: Option<ErrorCode>)
    requires Unstopped(ops, a, reply, n) && EndsWith(ops, b, reply, Calls(ops, a, reply, n), err)
    ensures EndsWith(ops, a + b, reply, n, err)
  {
    if err == None {
      StopsConcat(ops, a, b, reply, n);
    } else {
      StopsConcat(ops, a, b[..|b| - 1], reply, n);
      assert (a + b)[..|a + b| - 1] == a + b[..|b| - 1];
    }
  }

  /** The error a receive call returned, if any. */
  function ErrorOf(result: Option<RecvResult>): Option<ErrorCode> {
    if result.Some? && result.value.Failed? then Some(result.value.error) else None
  }

  lemma HandleStops(ops: seq<Op>, r: RecvResult, reply: Replies, n: nat)
    ensures var (more, result) := Handle(ops, r, reply, n);
            && ErrorOf(result) == Stop(ops, r, reply, n)
            && NextCall(ops, r, reply, n) == n + |more| - 1
  {
  }

  lemma OneEnds(ops: seq<Op>, r: RecvResult, reply: Replies, n: nat)
    ensures Calls(ops, [r], reply, n) == NextCall(ops, r, reply, n)
    ensures EndsWith(ops, [r], reply, n, Stop(ops, r, reply, n))
  {
    assert [r][1..] == [] && [r][..0] == [];
  }

  /** A receive call deals with results up to the first packet or the first that ends the loop. */
  lemma {:induction false} ReceiveEndsAtStop(
    acts: seq<Act>, ops: seq<Op>, incoming: seq<RecvResult>, reply: Replies, n: nat)
    ensures var o := ReceiveFrom(acts, ops, incoming, reply, n);
            && o.calls == Calls(ops, Taken(incoming, o.left), reply, n)
            && EndsWith(ops, Taken(incoming, o.left), reply, n, ErrorOf(o.result))
    decreases |incoming|
  {
    if incoming != [] {
      var (more, result) := Handle(ops, incoming[0], reply, n);
      var o, one := ReceiveFrom(acts, ops, incoming, reply, n), [incoming[0]];
      HandleStops(ops, incoming[0], reply, n);
      OneEnds(ops, incoming[0], reply, n);
      if result == None {
        var n' := n + |more| - 1;
        ReceiveEndsAtStop(acts + more, ops, incoming[1..], reply, n');
        ReceiveConsumes(acts + more, ops, incoming[1..], reply, n');
        TakenMore(incoming, o.left);
        StopsConcat(ops, one, Taken(incoming[1..], o.left), reply, n);
        EndsWithConcat(ops, one, Taken(incoming[1..], o.left), reply, n, ErrorOf(o.result));
      } else {
        TakenOne(incoming);
      }
    }
  }

  lemma {:induction false} FailedPrefixStops(a: seq<Op>, b: seq<Op>, reply: Replies, n: nat)
    requires FirstError(a, reply, n) != Success
    ensures Perform(a + b, reply, n) == Perform(a, reply, n)
    ensures FirstError(a + b, reply, n) == FirstError(a, reply, n)
  {
    assert (a + b)[0] == a[0] && (a + b)[1..] == a[1..] + b;
    if reply(n) == Success {
      FailedPrefixStops(a[1..], b, reply, n + 1);
    }
  }

  lemma {:induction false} DonePrefixContinues(a: seq<Op>, b: seq<Op>, reply: Replies, n: nat)
    requires FirstError(a, reply, n) == Success
    ensures |Perform(a, reply, n)| == |a|
    ensures Perform(a + b, reply, n) == Perform(a, reply, n) + Perform(b, reply, n + |a|)
    ensures FirstError(a + b, reply, n) == FirstError(b, reply, n + |a|)
  {
    if a == [] {
      assert a + b == b;
    } else {
      var first, done, rest := [Did(a[0], Success)], Perform(a[1..], reply, n + 1), Perform(b, reply, n + |a|);
      assert (a + b)[0] == a[0] && (a + b)[1..] == a[1..] + b;
      DonePrefixContinues(a[1..], b, reply, n + 1);
      assert n + 1 + |a[1..]| == n + |a|;
      calc {
        Perform(a + b, reply, n);
        first + Perform(a[1..] + b, reply, n + 1);
        first + (done + rest);
        (first + done) + rest;
        Perform(a, reply, n) + rest;
      }
    }
  }

  lemma PerformConcat(a: seq<Op>, b: seq<Op>, reply: Replies, n: nat)
    ensures FirstError(a, reply, n) != Success ==>
      && Perform(a + b, reply, n) == Perform(a, reply, n)
      && FirstError(a + b, reply, n) == FirstError(a, reply, n)
    ensures FirstError(a, reply, n) == Success ==>
      && |Perform(a, reply, n)| == |a|
      && Perform(a + b, reply, n) == Perform(a, reply, n) + Perform(b, reply, n + |a|)
      && FirstError(a + b, reply, n) == FirstError(b, reply, n + |a|)
  {
    if FirstError(a, reply, n) != Success {
      FailedPrefixStops(a, b, reply, n);
    } else {
      DonePrefixContinues(a, b, reply, n);
    }
  }

  // ---------- The objects ----------

  /** The client as an entity sees it: results to take, calls answered by an oracle, and a log. */
  class ClientPort {
    var incoming: seq<RecvResult>
    var calls: nat
    const reply: Replies
    ghost var log: seq<Act>

    constructor (incoming: seq<RecvResult>, reply: Replies)
      ensures this.incoming == incoming && this.reply == reply && calls == 0 && log == []
    {
      this.incoming, this.reply, calls, log := incoming, reply, 0, [];
    }

    method Call(op: Op) returns (err: ErrorCode)
      modifies this
      ensures err == reply(old(calls)) && calls == old(calls) + 1
      ensures incoming == old(incoming) && log == old(log) + [Did(op, err)]
    {
      err := reply(calls);
      calls := calls + 1;
      log := log + [Did(op, err)];
    }

    method Recv() returns (r: RecvResult)
      requires incoming != []
      modifies this
      ensures r == old(incoming)[0] && incoming == old(incoming)[1..]
      ensures calls == old(calls) && log == old(log) + [Took(r)]
    {
      r := incoming[0];
      incoming := incoming[1..];
      log := log + [Took(r)];
    }
  }

  class EntityBase {
    const client: ClientPort
    const spec: Spec

    constructor (client: ClientPort, spec: Spec)
      ensures this.client == client && this.spec == spec
    {
      this.client, this.spec := client, spec;
    }

    /** The client performed these calls in order up to the first that failed. */
    twostate predicate Performed(ops: seq<Op>, err: ErrorCode)
      reads client
    {
      var n := old(client.calls);
      && client.incoming == old(client.incoming)
      && err == FirstError(ops, client.reply, n)
      && client.log == old(client.log) + Perform(ops, client.reply, n)
      && client.calls == n + |Perform(ops, client.reply, n)|
    }

    method Discovery() returns (err: ErrorCode)
      modifies client
      ensures Performed([spec.DiscoveryOp()], err)
    {
      err := client.Call(PublishOp(Topics.DefaultTopic(spec.component, spec.uniqueId, Topics.Discovery), spec.json, true));
    }

    /** A state-only entity has nothing to subscribe to. */
    method Subscribe() returns (err: ErrorCode)
      modifies client
      ensures Performed(spec.SubscribeOps(), err)
    {
      if spec.topics == [] {
        return Success;
      }
      err := client.Call(SubscribeOp(spec.topics));
    }

    method UpdateAvailability(online: bool) returns (err: ErrorCode)
      requires spec.WellConfigured()
      modifies client
      ensures Performed(spec.AvailabilityOps(online), err)
    {
      if !Contains(spec.cfg, AVAILABILITY_TOPIC).value {
        return Success;
      }
      var payload: string;
      if online {
        payload := "online";
        if Contains(spec.cfg, PAYLOAD_AVAILABLE).value {
          payload := At(spec.cfg, PAYLOAD_AVAILABLE).value;
        }
      } else {
        payload := "offline";
        if Contains(spec.cfg, PAYLOAD_NOT_AVAILABLE).value {
          payload := At(spec.cfg, PAYLOAD_NOT_AVAILABLE).value;
        }
      }
      err := client.Call(PublishOp(At(spec.cfg, AVAILABILITY_TOPIC).value, payload, true));
    }

    /** Discovery, subscribe, availability, stopping at the first error. */
    method Setup() returns (err: ErrorCode)
      requires spec.WellConfigured()
      modifies client
      ensures Performed(spec.SetupOps(), err)
    {
      ghost var n := client.calls;
      ghost var a, b, c := [spec.DiscoveryOp()], spec.SubscribeOps(), spec.AvailabilityOps(true);
      PerformConcat(a + b, c, client.reply, n);
      PerformConcat(a, b, client.reply, n);
      err := Discovery();
      if err != Success {
        return;
      }
      err := Subscribe();
      if err != Success {
        return;
      }
      err := UpdateAvailability(true);
    }

    method HandleErr(err: ErrorCode) returns (result: ErrorCode)
      requires spec.WellConfigured()
      modifies client
      ensures err == SessionReset ==> Performed(spec.SetupOps(), result)
      ensures err != SessionReset ==> Performed([], Success) && result == err
    {
      if err == SessionReset {
        result := Setup();
        return;
      }
      return err;
    }

    /** One turn of the receive loop: take a result and deal with it. */
    method RecvOne() returns (result: Option<RecvResult>)
      requires spec.WellConfigured() && client.incoming != []
      modifies client
      ensures client.incoming == old(client.incoming)[1..]
      ensures var h := Handle(spec.SetupOps(), old(client.incoming)[0], client.reply, old(client.calls));
              && result == h.1
              && client.log == old(client.log) + h.0
              && client.calls == old(client.calls) + |h.0| - 1
    {
      var packet := client.Recv();
      if packet.Received? {
        return Some(packet);
      }
      var err := HandleErr(packet.error);
      if err != Success {
        return Some(Failed(err));
      }
      return None;
    }

    /** The same, with what the call did so far. */
    method RecvTurn(ghost before: seq<Act>, ghost acts: seq<Act>) returns (result: Option<RecvResult>, ghost acts': seq<Act>)
      requires spec.WellConfigured() && client.incoming != [] && client.log == before + acts
      modifies client
      ensures client.log == before + acts'
      ensures |client.incoming| < |old(client.incoming)|
      ensures ReceiveFrom(acts, spec.SetupOps(), old(client.incoming), client.reply, old(client.calls)) ==
              if result.Some? then Outcome(acts', result, client.incoming, client.calls)
              else ReceiveFrom(acts', spec.SetupOps(), client.incoming, client.reply, client.calls)
    {
      ReceiveNext(acts, spec.SetupOps(), client.incoming, client.reply, client.calls);
      acts' := acts + Handle(spec.SetupOps(), client.incoming[0], client.reply, client.calls).0;
      result := RecvOne();
    }

    /** The receive loop; `None` when the client has nothing more and the call stays suspended. */
    method Recv() returns (result: Option<RecvResult>)
      requires spec.WellConfigured()
      modifies client
      ensures var o := Receive(spec.SetupOps(), old(client.incoming), client.reply, old(client.calls));
              && result == o.result && client.incoming == o.left && client.calls == o.calls
              && client.log == old(client.log) + o.acts
    {
      ghost var all := Receive(spec.SetupOps(), client.incoming, client.reply, client.calls);
      ghost var acts: seq<Act> := [];
      while client.incoming != []
        invariant client.log == old(client.log) + acts
        invariant all == ReceiveFrom(acts, spec.SetupOps(), client.incoming, client.reply, client.calls)
        decreases |client.incoming|
      {
        result, acts := RecvTurn(old(client.log), acts);
        if result.Some? {
          return;
        }
      }
      return None;
    }
  }
}
