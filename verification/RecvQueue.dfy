/** The per-client FIFO whose timer is cancelled to wake the receivers parked on it. */
module RecvQueue {
  import opened Mqtt
  import opened Errors

  /** The queue with its receivers. `waiting` receivers are parked on the timer, `woken` ones had
      their wait cancelled and have not resumed yet; `popped` and `failures` record what the
      receivers got: results in order, and wakeups that found nothing. */
  datatype Queue = Queue(
    queue: seq<RecvResult>,
    waiting: nat,
    woken: nat,
    popped: seq<RecvResult>,
    failures: nat)

  const EMPTY := Queue([], 0, 0, [], 0)

  /** Append, and cancel the timer: every parked receiver is woken. */
  function Push(q: Queue, r: RecvResult): Queue {
    q.(queue := q.queue + [r], waiting := 0, woken := q.woken + q.waiting)
  }

  function Pop(q: Queue): Queue
    requires q.queue != []
  {
    q.(queue := q.queue[1..], popped := q.popped + [q.queue[0]])
  }

  /** A receiver arrives: it pops at once or parks. */
  function Enter(q: Queue): Queue {
    if q.queue == [] then q.(waiting := q.waiting + 1) else Pop(q)
  }

  /** A woken receiver resumes: it pops, or reports the cancelled wait. */
  function Resume(q: Queue): Queue
    requires q.woken > 0
  {
    var q' := q.(woken := q.woken - 1);
    if q.queue == [] then q'.(failures := q.failures + 1) else Pop(q')
  }

  /** What a resuming receiver returns: the oldest result, or the error its cancelled wait maps to. */
  function Resumed(q: Queue): (r: RecvResult)
    ensures if q.queue == [] then r == Failed(UnknownError) else [r] + q.queue[1..] == q.queue
  {
    if q.queue == [] then Failed(MapErr(SystemCategory(OperationAborted))) else q.queue[0]
  }

  datatype Event = Pushed(r: RecvResult) | Entered | ResumedOne

  predicate Enabled(q: Queue, e: Event) {
    e.ResumedOne? ==> q.woken > 0
  }

  function Step(q: Queue, e: Event): Queue
    requires Enabled(q, e)
  {
    match e
    case Pushed(r) => Push(q, r)
    case Entered => Enter(q)
    case ResumedOne => Resume(q)
  }

  /** Every order in which pushes, arrivals and resumptions can interleave from here on. */
  predicate ValidRun(q: Queue, es: seq<Event>)
    decreases |es|
  {
    es == [] || (Enabled(q, es[0]) && ValidRun(Step(q, es[0]), es[1..]))
  }

  function Run(q: Queue, es: seq<Event>): Queue
    requires ValidRun(q, es)
    decreases |es|
  {
    if es == [] then q else Run(Step(q, es[0]), es[1..])
  }

  function PushOf(e: Event): seq<RecvResult> {
    if e.Pushed? then [e.r] else []
  }

  function Pushes(es: seq<Event>): seq<RecvResult> {
    if es == [] then [] else PushOf(es[0]) + Pushes(es[1..])
  }

  function Arrivals(es: seq<Event>): nat {
    if es == [] then 0 else (if es[0].Entered? then 1 else 0) + Arrivals(es[1..])
  }

  /** Receivers that arrived and have not returned. */
  function Outstanding(q: Queue): nat {
    q.waiting + q.woken
  }

  /** Every receiver of the run finds at most `n` others outstanding when it arrives. */
  predicate ArrivalsFind(q: Queue, es: seq<Event>, n: nat)
    requires ValidRun(q, es)
    decreases |es|
  {
    es == [] || ((es[0].Entered? ==> Outstanding(q) <= n) && ArrivalsFind(Step(q, es[0]), es[1..], n))
  }

  lemma PushKeeps(q: Queue, r: RecvResult)
    requires q.waiting > 0 ==> q.queue == []
    ensures Push(q, r).waiting == 0
    ensures Push(q, r).popped + Push(q, r).queue == (q.popped + q.queue) + [r]
  {
  }

  lemma PopsKeep(q: Queue)
    requires q.waiting > 0 ==> q.queue == []
    ensures Enter(q).waiting > 0 ==> Enter(q).queue == []
    ensures Enter(q).popped + Enter(q).queue == q.popped + q.queue
    ensures q.woken > 0 ==> (Resume(q).waiting > 0 ==> Resume(q).queue == [])
    ensures q.woken > 0 ==> Resume(q).popped + Resume(q).queue == q.popped + q.queue
  {
    if q.queue != [] {
      assert [q.queue[0]] + q.queue[1..] == q.queue;
    }
  }

  lemma {:induction false} ParkedMeansEmpty(q: Queue, es: seq<Event>)
    requires ValidRun(q, es)
    requires q.waiting > 0 ==> q.queue == []
    ensures Run(q, es).waiting > 0 ==> Run(q, es).queue == []
    decreases |es|
  {
    if es != [] {
      ParkedMeansEmpty(Step(q, es[0]), es[1..]);
    }
  }

  lemma StepKeepsOrder(q: Queue, e: Event, had: seq<RecvResult>)
    requires Enabled(q, e) && (q.waiting > 0 ==> q.queue == [])
    requires q.popped + q.queue == had
    ensures Step(q, e).popped + Step(q, e).queue == had + PushOf(e)
    ensures Step(q, e).waiting > 0 ==> Step(q, e).queue == []
  {
    PopsKeep(q);
    if e.Pushed? {
      PushKeeps(q, e.r);
    }
  }

  lemma {:induction false} RunKeepsOrder(q: Queue, es: seq<Event>, had: seq<RecvResult>, all: seq<RecvResult>)
    requires ValidRun(q, es)
    requires q.waiting > 0 ==> q.queue == []
    requires q.popped + q.queue == had && had + Pushes(es) == all
    ensures Run(q, es).popped + Run(q, es).queue == all
    decreases |es|
  {
    if es != [] {
      StepKeepsOrder(q, es[0], had);
      RunKeepsOrder(Step(q, es[0]), es[1..], had + PushOf(es[0]), all);
    }
  }

  lemma {:induction false} RunKeepsCount(q: Queue, es: seq<Event>)
    requires ValidRun(q, es)
    ensures |Run(q, es).popped| + Run(q, es).failures + Outstanding(Run(q, es)) ==
            |q.popped| + q.failures + Outstanding(q) + Arrivals(es)
    decreases |es|
  {
    if es != [] {
      RunKeepsCount(Step(q, es[0]), es[1..]);
    }
  }

  lemma NothingBefore(s: seq<RecvResult>)
    ensures [] + s == s
  {
  }

  lemma {:induction false} NothingLost(es: seq<Event>)
    requires ValidRun(EMPTY, es)
    ensures Run(EMPTY, es).popped + Run(EMPTY, es).queue == Pushes(es)
  {
    NothingBefore([]);
    NothingBefore(Pushes(es));
    RunKeepsOrder(EMPTY, es, [], Pushes(es));
  }

  /** With any number of receivers: a parked receiver means an empty queue, the results handed out
      followed by those still queued are exactly the pushes in order, and every receiver that
      arrived is accounted for. */
  lemma {:induction false} NoLostWakeup(es: seq<Event>)
    requires ValidRun(EMPTY, es)
    ensures Run(EMPTY, es).waiting > 0 ==> Run(EMPTY, es).queue == []
    ensures Run(EMPTY, es).popped + Run(EMPTY, es).queue == Pushes(es)
    ensures Arrivals(es) == |Run(EMPTY, es).popped| + Run(EMPTY, es).failures + Outstanding(Run(EMPTY, es))
  {
    ParkedMeansEmpty(EMPTY, es);
    NothingLost(es);
    RunKeepsCount(EMPTY, es);
  }

  // ---------- Empty wakeups ----------

  /** With one receiver at a time, a woken receiver always finds a result, so the branch for an
      empty wakeup is never taken. */
  lemma {:induction false} SingleReceiverNeverWakesEmpty(q: Queue, es: seq<Event>)
    requires ValidRun(q, es) && ArrivalsFind(q, es, 0)
    requires Outstanding(q) <= 1 && (q.woken > 0 ==> q.queue != [])
    ensures Run(q, es).failures == q.failures
    ensures Outstanding(Run(q, es)) <= 1 && (Run(q, es).woken > 0 ==> Run(q, es).queue != [])
    decreases |es|
  {
    if es != [] {
      SingleReceiverNeverWakesEmpty(Step(q, es[0]), es[1..]);
    }
  }

  /** Arrivals drain the queue before a woken receiver resumes. */
  lemma DrainedWakesEmpty(q: Queue, n: nat) returns (es: seq<Event>)
    requires q.woken > 0 && (q.queue != [] ==> Outstanding(q) <= n)
    ensures ValidRun(q, es) && ArrivalsFind(q, es, n) && Run(q, es).failures > q.failures
    decreases |q.queue|
  {
    if q.queue == [] {
      es := [ResumedOne];
      assert es[1..] == [];
    } else {
      var rest := DrainedWakesEmpty(Enter(q), n);
      es := [Entered] + rest;
      assert es[1..] == rest;
    }
  }

  /** Two parked receivers and one push: the second to resume finds nothing. */
  lemma ParkedPairWakesEmpty(q: Queue, r: RecvResult, n: nat) returns (es: seq<Event>)
    requires q.waiting > 1 && q.queue == []
    ensures ValidRun(q, es) && ArrivalsFind(q, es, n) && Run(q, es).failures > q.failures
  {
    var rest := DrainedWakesEmpty(Resume(Push(q, r)), n);
    es := [Pushed(r), ResumedOne] + rest;
    assert es[1..] == [ResumedOne] + rest && es[1..][1..] == rest;
  }

  /** A run that starts with an arrival, and whose later arrivals find no more receivers outstanding
      than that one did. */
  predicate ArrivesInto(q: Queue, es: seq<Event>) {
    es != [] && es[0].Entered? && ValidRun(q, es) && ArrivalsFind(q, es, Outstanding(q))
  }

  lemma OverlapCanWakeEmpty(q: Queue) returns (es: seq<Event>)
    requires Outstanding(q) > 0 && (q.waiting > 0 ==> q.queue == [])
    ensures ArrivesInto(q, es) && Run(q, es).failures > q.failures
  {
    var rest;
    if q.woken > 0 {
      rest := DrainedWakesEmpty(Enter(q), Outstanding(q));
    } else {
      rest := ParkedPairWakesEmpty(Enter(q), Failed(SessionReset), Outstanding(q));
    }
    es := [Entered] + rest;
    assert es[1..] == rest;
  }

  /** A run from `q` takes the branch for an empty wakeup after an arrival, without being busier than
      that arrival found the queue. */
  ghost predicate Risky(q: Queue) {
    exists es :: ArrivesInto(q, es) && Run(q, es).failures > q.failures
  }

  lemma AloneIsSafe(q: Queue, es: seq<Event>)
    requires Outstanding(q) == 0 && ArrivesInto(q, es)
    ensures Run(q, es).failures == q.failures
  {
    SingleReceiverNeverWakesEmpty(q, es);
  }

  /** An arrival is safe exactly when nobody else is outstanding. */
  lemma ArrivalIsRiskyIff(q: Queue)
    requires q.waiting > 0 ==> q.queue == []
    ensures Risky(q) <==> Outstanding(q) > 0
  {
    if Outstanding(q) > 0 {
      var fs := OverlapCanWakeEmpty(q);
    } else if fs :| ArrivesInto(q, fs) && Run(q, fs).failures > q.failures {
      AloneIsSafe(q, fs);
    }
  }

  /** No receiver ever arrives while another one is parked or about to resume. */
  predicate OneReceiverAtATime(es: seq<Event>)
    requires ValidRun(EMPTY, es)
  {
    ArrivalsFind(EMPTY, es, 0)
  }

  lemma {:induction false} PrefixFinds(q: Queue, es: seq<Event>, i: nat, n: nat)
    requires ValidRun(q, es) && i <= |es|
    ensures ValidRun(q, es[..i])
    ensures ArrivalsFind(q, es, n) && i < |es| && es[i].Entered? ==> Outstanding(Run(q, es[..i])) <= n
    decreases |es|
  {
    if i > 0 {
      PrefixFinds(Step(q, es[0]), es[1..], i - 1, n);
      assert es[..i][1..] == es[1..][..i - 1];
    }
  }

  lemma {:induction false} BusyArrival(q: Queue, es: seq<Event>, n: nat) returns (i: nat)
    requires ValidRun(q, es) && !ArrivalsFind(q, es, n)
    ensures i < |es| && es[i].Entered? && ValidRun(q, es[..i]) && Outstanding(Run(q, es[..i])) > n
    decreases |es|
  {
    if es[0].Entered? && Outstanding(q) > n {
      i := 0;
    } else {
      i := BusyArrival(Step(q, es[0]), es[1..], n);
      i := i + 1;
      assert es[..i][1..] == es[1..][..i - 1];
    }
  }

  /** Some receiver of the run arrives where its arrival is risky. */
  ghost predicate RiskyArrival(es: seq<Event>, i: nat) {
    i < |es| && es[i].Entered? && ValidRun(EMPTY, es[..i]) && Risky(Run(EMPTY, es[..i]))
  }

  /** From one of its arrivals a run can go on to an empty wakeup, with receivers overlapping no more
      than they did there, exactly when receivers overlap in it. */
  lemma {:induction false} EmptyWakeupIffOverlap(es: seq<Event>)
    requires ValidRun(EMPTY, es)
    ensures (exists i: nat :: RiskyArrival(es, i)) <==> !OneReceiverAtATime(es)
  {
    if i: nat :| RiskyArrival(es, i) {
      PrefixFinds(EMPTY, es, i, 0);
      ParkedMeansEmpty(EMPTY, es[..i]);
      ArrivalIsRiskyIff(Run(EMPTY, es[..i]));
    }
    if !OneReceiverAtATime(es) {
      var i := BusyArrival(EMPTY, es, 0);
      ParkedMeansEmpty(EMPTY, es[..i]);
      ArrivalIsRiskyIff(Run(EMPTY, es[..i]));
      assert RiskyArrival(es, i);
    }
  }

  /** One such run: two receivers park, one push wakes both, and one result serves one. */
  lemma TwoReceiversCanWakeEmpty(r: RecvResult)
    ensures var es := [Entered, Entered, Pushed(r), ResumedOne, ResumedOne];
            ValidRun(EMPTY, es) && Run(EMPTY, es).failures == 1 && !OneReceiverAtATime(es)
  {
    var es := [Entered, Entered, Pushed(r), ResumedOne, ResumedOne];
    var q1 := Enter(EMPTY);
    var q2 := Enter(q1);
    var q3 := Push(q2, r);
    var q4 := Resume(q3);
    var q5 := Resume(q4);
    assert ValidRun(q5, []) && Run(q5, []) == q5;
    assert es[1..][1..][1..][1..] == [ResumedOne] && [ResumedOne][1..] == [];
    assert ValidRun(q4, [ResumedOne]) && Run(q4, [ResumedOne]) == q5;
    assert es[1..][1..][1..] == [ResumedOne, ResumedOne];
    assert ValidRun(q3, es[1..][1..][1..]) && Run(q3, es[1..][1..][1..]) == q5;
    assert ValidRun(q2, es[1..][1..]) && Run(q2, es[1..][1..]) == q5;
    assert ValidRun(q1, es[1..]) && Run(q1, es[1..]) == q5;
    assert es[1..][0].Entered? && !ArrivalsFind(q1, es[1..], 0);
  }

  /** The queue object: its deque and its timer's waiters, updated in place. */
  class RecvResultQueue {
    var queue: seq<RecvResult>
    var waiting: nat
    var woken: nat
    ghost var popped: seq<RecvResult>
    ghost var failures: nat
    /** The client this queue belongs to. */
    ghost const owner: nat

    ghost function Model(): Queue
      reads this
    {
      Queue(queue, waiting, woken, popped, failures)
    }

    constructor (ghost owner: nat)
      ensures Model() == EMPTY && this.owner == owner
    {
      this.owner := owner;
      queue, waiting, woken := [], 0, 0;
      popped, failures := [], 0;
    }

    /** Cancelling the timer is what turns waiters into woken receivers. */
    method CancelTimer()
      modifies this
      ensures Model() == old(Model()).(waiting := 0, woken := old(woken) + old(waiting))
    {
      woken := woken + waiting;
      waiting := 0;
    }

    method PushBack(result: RecvResult)
      modifies this
      ensures Model() == Push(old(Model()), result)
    {
      queue := queue + [result];
      CancelTimer();
    }

    /** The receive call up to its suspension point: a result, or parked on the timer. */
    method PopFrontStart() returns (result: Option<RecvResult>)
      modifies this
      ensures Model() == Enter(old(Model()))
      ensures result == if old(queue) == [] then None else Some(old(queue)[0])
    {
      if queue == [] {
        waiting := waiting + 1;
        return None;
      }
      var front := TakeFront();
      return Some(front);
    }

    /** The receive call after its wait was cancelled. */
    method PopFrontResume() returns (result: RecvResult)
      requires woken > 0
      modifies this
      ensures Model() == Resume(old(Model()))
      ensures result == Resumed(old(Model()))
    {
      woken := woken - 1;
      var ec := SystemCategory(OperationAborted);
      if queue == [] {
        failures := failures + 1;
        if ec != NoError {
          return Failed(MapErr(ec));
        }
        return Failed(InternalError);
      }
      result := TakeFront();
    }

    method TakeFront() returns (result: RecvResult)
      requires queue != []
      modifies this
      ensures Model() == Pop(old(Model()))
      ensures result == old(queue)[0]
    {
      result := queue[0];
      queue := queue[1..];
      popped := popped + [result];
    }
  }
}
