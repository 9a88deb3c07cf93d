/** What the physical client answers, and what its connection state means: exact statements over every
    run of the reconnect machine. */
module ReconnectOutcomes {
  import opened Mqtt
  import opened Errors
  import opened Reconnect

  // ---------- The connection state is its history ----------

  ghost predicate Connects(e: Event) {
    (e.ConnectDone? || e.StartDone?) && e.ec == NoError
  }

  /** The last successful connect came after the last close and the last broken receive. */
  ghost predicate UpAfter(es: seq<Event>) {
    es != [] &&
    var last := es[|es| - 1];
    Connects(last) || (!last.CloseDone? && !last.TransportBroken? && UpAfter(es[..|es| - 1]))
  }

  /** The last receive that broke a connection came after the last successful connect and the last
      close. */
  ghost predicate BrokenAfter(es: seq<Event>) {
    es != [] &&
    var init, last := es[..|es| - 1], es[|es| - 1];
    !Connects(last) && !last.CloseDone? && ((last.TransportBroken? && UpAfter(init)) || BrokenAfter(init))
  }

  /** The client counts as connected exactly while neither a close nor a broken receive followed its
      last successful connect; as reconnecting exactly while a broken receive did, no close, and the
      reconnect loop is still active; and as closed otherwise. */
  lemma {:induction false} ConnectionIsItsHistory(m: nat, es: seq<Event>)
    requires ValidRun(Initial(m), es)
    ensures Run(Initial(m), es).conn == Connected <==> UpAfter(es)
    ensures Run(Initial(m), es).conn == Reconnecting <==> BrokenAfter(es) && exists r :: InLoop(Run(Initial(m), es), r)
  {
    if es != [] {
      var init, last := es[..|es| - 1], es[|es| - 1];
      ConnectionIsItsHistory(m, init);
      Initially(m);
      RunKeepsInv(Initial(m), init);
      ConnectionStep(Run(Initial(m), init), last);
    }
  }

  lemma Initially(m: nat)
    ensures Inv(Initial(m))
  {
  }

  ghost predicate Looping(s: Client) {
    exists r :: InLoop(s, r)
  }

  lemma ConnectionStep(s: Client, e: Event)
    requires Inv(s) && Enabled(s, e)
    ensures var s' := Step(s, e);
            && (s'.conn == Connected <==> Connects(e) || (!e.CloseDone? && !e.TransportBroken? && s.conn == Connected))
            && (s'.conn == Reconnecting <==>
                  && !Connects(e) && !e.CloseDone?
                  && ((e.TransportBroken? && s.conn == Connected) || s.conn == Reconnecting) && Looping(s'))
            && (Looping(s') ==> Looping(s) || (e.TransportBroken? && s.conn == Connected))
  {
    StepKeepsInv(s, e);
    var s' := Step(s, e);
    if e.SleepOver? || e.HandshakeDone? || e.StartDone? {
      assert InLoop(s, e.r);
    }
    if s'.conn == Reconnecting {
      assert Looping(s');
    }
    if Looping(s') {
      var r :| InLoop(s', r);
      assert InLoop(s, r) || (e.TransportBroken? && s.conn == Connected);
    }
  }

  // ---------- After a close ----------

  /** A close closes the client, whatever it was doing, and leaves no call parked. */
  lemma CloseCloses(s: Client, m: nat)
    requires Reachable(s, m)
    ensures Step(s, CloseDone).conn == Closed && Step(s, CloseDone).recvs == s.recvs
    ensures forall k :: k in s.calls ==>
      k in Step(s, CloseDone).calls &&
      Step(s, CloseDone).calls[k] == if s.calls[k].Parked? then Woken else s.calls[k]
  {
  }

  /** Along any run after a close with no loop active, until the application connects again: no call
      enters the transport, and every receive that breaks is told that the client is disconnected. */
  lemma ClosedRefusesAll(s: Client, m: nat, es: seq<Event>, e: Event)
    requires Reachable(s, m) && !Looping(s)
    requires ValidRun(Step(s, CloseDone), es) && NoExplicitConnect(es)
    requires Enabled(Run(Step(s, CloseDone), es), e) && !e.ConnectDone?
    ensures var p := Run(Step(s, CloseDone), es);
            var p' := Step(p, e);
            && p.conn == Closed && p'.conn == Closed
            && (forall k :: k in p'.calls && p'.calls[k].InTransport? ==> k in p.calls && p.calls[k].InTransport?)
            && (e.CallStart? || e.CallResume? ==> p'.calls[e.k] == Finished(NotConnected))
            && (e.TransportBroken? ==> Returns(p, e, e.r, Failed(Disconnected)))
  {
    var c := Step(s, CloseDone);
    forall r ensures !InLoop(c, r) {
      assert !InLoop(s, r);
    }
    ClosedWithoutLoopStays(c, es);
    if e.SleepOver? || e.HandshakeDone? || e.StartDone? {
      assert InLoop(Run(c, es), e.r);
    }
  }

  // ---------- What a receive returns ----------

  /** Every result a receive call can return, and the one step that makes it return it: the packet that
      arrived, an invalid packet, a broken transport on a client that is closed or already reconnecting,
      its own reconnect, or the last of its failed attempts with that attempt's error. */
  lemma ReceiveReturnsIff(s: Client, m: nat, e: Event, r: RecvId, result: RecvResult)
    requires Reachable(s, m) && Enabled(s, e)
    ensures Returns(s, e, r, result) <==>
      || (exists p :: e == PacketArrived(r, p) && result == Received(p))
      || (e == NoPacket(r) && result == Failed(InvalidPacket))
      || (e == TransportBroken(r) && s.conn == Closed && result == Failed(Disconnected))
      || (e == TransportBroken(r) && s.conn == Reconnecting && result == Failed(InternalError))
      || (e == TransportBroken(r) && s.conn == Connected && m == 0 && result == Failed(Success))
      || (e == StartDone(r, NoError) && result == Failed(SessionReset))
      || ((e.HandshakeDone? || e.StartDone?) && e.r == r && e.ec != NoError && s.attempt == m && result == Failed(MapErr(e.ec)))
  {
    ReconnectInvariant(s, m);
    if InLoop(s, r) {
      assert LoopInv(s, s.recvs[r]);
    }
    if e.HandshakeDone? || e.StartDone? {
      assert InLoop(s, e.r) && LoopInv(s, s.recvs[e.r]);
    }
  }

  predicate Waits(s: Client, r: RecvId) {
    r in s.recvs && s.recvs[r] == Waiting
  }

  /** A receive waits in the transport exactly from its start. */
  lemma ReceiveWaitsIff(s: Client, e: Event, r: RecvId)
    requires Enabled(s, e)
    ensures !Waits(s, r) && Waits(Step(s, e), r) <==> e == RecvStart(r)
  {
    if !OfReceive(e, r) {
      ReceivesMoveAlone(s, e, r);
    }
  }

  /** A receive enters the reconnect loop exactly by breaking on a connected client. */
  lemma LoopEnteredIff(s: Client, m: nat, e: Event, r: RecvId)
    requires Reachable(s, m) && Enabled(s, e)
    ensures !InLoop(s, r) && InLoop(Step(s, e), r) <==> e == TransportBroken(r) && s.conn == Connected && m > 0
  {
    ReconnectInvariant(s, m);
    if !OfReceive(e, r) {
      ReceivesMoveAlone(s, e, r);
    }
  }

  /** The events of one receive call. */
  predicate OfReceive(e: Event, r: RecvId) {
    match e
    case RecvStart(x) => x == r
    case PacketArrived(x, _) => x == r
    case NoPacket(x) => x == r
    case TransportBroken(x) => x == r
    case SleepOver(x) => x == r
    case HandshakeDone(x, _) => x == r
    case StartDone(x, _) => x == r
    case _ => false
  }

  /** No step of anything else moves a receive call. */
  lemma ReceivesMoveAlone(s: Client, e: Event, r: RecvId)
    requires Enabled(s, e) && !OfReceive(e, r)
    ensures r in Step(s, e).recvs <==> r in s.recvs
    ensures r in s.recvs ==> Step(s, e).recvs[r] == s.recvs[r]
  {
  }

  // ---------- What a call answers ----------

  /** Step `e` moves call `k` to `c`. */
  ghost predicate MovesTo(s: Client, e: Event, k: CallId, c: Call)
    requires Enabled(s, e)
  {
    k in Step(s, e).calls && Step(s, e).calls[k] == c && (k in s.calls ==> s.calls[k] != c)
  }

  /** A publish or subscribe parks exactly when it begins during a reconnect, enters the transport exactly
      when it begins or resumes on a connected client, and is woken exactly when the reconnect is over. */
  lemma CallMovesIff(s: Client, m: nat, e: Event, k: CallId)
    requires Reachable(s, m) && Enabled(s, e)
    ensures MovesTo(s, e, k, Parked) <==> e == CallStart(k) && s.conn == Reconnecting
    ensures MovesTo(s, e, k, InTransport) <==> e in {CallStart(k), CallResume(k)} && s.conn == Connected
    ensures MovesTo(s, e, k, Woken) <==> k in s.calls && s.calls[k] == Parked && Step(s, e).conn != Reconnecting
  {
    ReconnectInvariant(s, m);
  }

  /** In the transport it ends exactly with what the transport reported; outside, it is refused exactly when
      it begins on a closed client or resumes on one that is not connected. */
  lemma CallEndsIff(s: Client, e: Event, k: CallId, err: ErrorCode)
    requires Enabled(s, e)
    ensures k in s.calls && s.calls[k].InTransport? ==>
      (MovesTo(s, e, k, Finished(err)) <==> exists ec :: e == CallDone(k, ec) && err == MapErr(ec))
    ensures !(k in s.calls && s.calls[k] in {InTransport, Finished(err)}) ==>
      (MovesTo(s, e, k, Finished(err)) <==>
         err == NotConnected && ((e == CallStart(k) && s.conn == Closed) || (e == CallResume(k) && s.conn != Connected)))
  {
  }
}
