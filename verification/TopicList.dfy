/** A logical client's list of registered topics, seen as an insertion-ordered map. */
module TopicList {
  import opened Mqtt

  /** Position of the first entry with this name, or the length when there is none. */
  function IndexOf(ts: seq<TopicSubopts>, name: string): (i: nat)
    ensures i <= |ts|
    ensures i < |ts| ==> ts[i].topic == name
    ensures forall j :: 0 <= j < i ==> ts[j].topic != name
  {
    if ts == [] then 0
    else if ts[0].topic == name then 0
    else 1 + IndexOf(ts[1..], name)
  }

  /** Replace the entry with the same name, or append. */
  function Upsert(ts: seq<TopicSubopts>, t: TopicSubopts): seq<TopicSubopts> {
    var i := IndexOf(ts, t.topic);
    if i == |ts| then ts + [t] else ts[i := t]
  }

  /** One subscribe call: upsert its entries from left to right. */
  function UpsertAll(ts: seq<TopicSubopts>, added: seq<TopicSubopts>): seq<TopicSubopts> {
    if added == [] then ts
    else Upsert(UpsertAll(ts, added[..|added| - 1]), added[|added| - 1])
  }

  /** A run of subscribe calls, oldest first. */
  function UpsertCalls(calls: seq<seq<TopicSubopts>>): seq<TopicSubopts> {
    if calls == [] then [] else UpsertAll(UpsertCalls(calls[..|calls| - 1]), calls[|calls| - 1])
  }

  function Names(ts: seq<TopicSubopts>): (ns: seq<string>)
    ensures |ns| == |ts|
    ensures forall i :: 0 <= i < |ts| ==> ns[i] == ts[i].topic
  {
    seq(|ts|, i requires 0 <= i < |ts| => ts[i].topic)
  }

  ghost predicate UniqueNames(ts: seq<TopicSubopts>) {
    forall i, j :: 0 <= i < j < |ts| ==> ts[i].topic != ts[j].topic
  }

  predicate HasName(ts: seq<TopicSubopts>, name: string) {
    exists i :: 0 <= i < |ts| && ts[i].topic == name
  }

  // ---------- The references: what the broker stores, and first-occurrence order ----------

  /** The broker's side of SUBSCRIBE: an equal filter replaces the subscription
      (section 3.8.4 of MQTT Version 5.0). */
  function BrokerStore(m: map<string, nat>, added: seq<TopicSubopts>): map<string, nat> {
    if added == [] then m
    else
      var t := added[|added| - 1];
      BrokerStore(m, added[..|added| - 1])[t.topic := t.opts]
  }

  function BrokerStoreCalls(calls: seq<seq<TopicSubopts>>): map<string, nat> {
    if calls == [] then map[] else BrokerStore(BrokerStoreCalls(calls[..|calls| - 1]), calls[|calls| - 1])
  }

  /** Append the names not seen yet, in order of first occurrence. */
  function FirstOccurrences(ns: seq<string>, added: seq<string>): seq<string> {
    if added == [] then ns
    else
      var before := FirstOccurrences(ns, added[..|added| - 1]);
      var name := added[|added| - 1];
      if name in before then before else before + [name]
  }

  function FirstOccurrencesCalls(calls: seq<seq<TopicSubopts>>): seq<string> {
    if calls == [] then []
    else FirstOccurrences(FirstOccurrencesCalls(calls[..|calls| - 1]), Names(calls[|calls| - 1]))
  }

  /** The list holds one entry per key of the map, with the key's value: subscribing its entries
      from scratch gives exactly this store. */
  ghost predicate Represents(ts: seq<TopicSubopts>, m: map<string, nat>) {
    UniqueNames(ts) && BrokerStore(map[], ts) == m
  }

  lemma {:induction false} StoreHolds(ts: seq<TopicSubopts>, i: nat)
    requires UniqueNames(ts) && i < |ts|
    ensures ts[i].topic in BrokerStore(map[], ts)
    ensures BrokerStore(map[], ts)[ts[i].topic] == ts[i].opts
  {
    if i < |ts| - 1 {
      StoreHolds(ts[..|ts| - 1], i);
    }
  }

  /** Replacing an entry under its own name is an update of the store. */
  lemma {:induction false} ReplaceIsUpdate(ts: seq<TopicSubopts>, i: nat, t: TopicSubopts)
    requires UniqueNames(ts) && i < |ts| && ts[i].topic == t.topic
    ensures BrokerStore(map[], ts[i := t]) == BrokerStore(map[], ts)[t.topic := t.opts]
  {
    var init, last := ts[..|ts| - 1], ts[|ts| - 1];
    if i == |ts| - 1 {
      assert ts[i := t][..|ts| - 1] == init;
    } else {
      ReplaceIsUpdate(init, i, t);
      assert ts[i := t][..|ts| - 1] == init[i := t];
    }
  }

  lemma UpsertNames(ts: seq<TopicSubopts>, t: TopicSubopts)
    ensures Names(Upsert(ts, t)) == if t.topic in Names(ts) then Names(ts) else Names(ts) + [t.topic]
    ensures UniqueNames(ts) ==> UniqueNames(Upsert(ts, t))
  {
    var i := IndexOf(ts, t.topic);
    if i < |ts| {
      assert Names(ts)[i] == t.topic;
      assert Names(ts[i := t]) == Names(ts);
    } else {
      assert Names(ts + [t]) == Names(ts) + [t.topic];
    }
  }

  lemma UpsertStores(ts: seq<TopicSubopts>, t: TopicSubopts)
    requires UniqueNames(ts)
    ensures BrokerStore(map[], Upsert(ts, t)) == BrokerStore(map[], ts)[t.topic := t.opts]
  {
    var i := IndexOf(ts, t.topic);
    if i < |ts| {
      ReplaceIsUpdate(ts, i, t);
    } else {
      assert (ts + [t])[..|ts|] == ts;
    }
  }

  lemma {:induction false} UpsertAllStores(ts: seq<TopicSubopts>, added: seq<TopicSubopts>)
    requires UniqueNames(ts)
    ensures Represents(UpsertAll(ts, added), BrokerStore(BrokerStore(map[], ts), added))
  {
    if added != [] {
      var init, last := added[..|added| - 1], added[|added| - 1];
      UpsertAllStores(ts, init);
      UpsertNames(UpsertAll(ts, init), last);
      UpsertStores(UpsertAll(ts, init), last);
    }
  }

  lemma {:induction false} UpsertAllInOrder(ts: seq<TopicSubopts>, added: seq<TopicSubopts>)
    ensures Names(UpsertAll(ts, added)) == FirstOccurrences(Names(ts), Names(added))
  {
    if added != [] {
      var init, last := added[..|added| - 1], added[|added| - 1];
      UpsertAllInOrder(ts, init);
      UpsertNames(UpsertAll(ts, init), last);
      assert Names(added)[..|added| - 1] == Names(init);
    }
  }

  /** After any sequence of subscribe calls, with repeats across calls and inside one call, the
      registered list is the broker's store: one entry per name, holding the last options given,
      in order of first occurrence. */
  lemma {:induction false} TopicListIsOrderedMap(calls: seq<seq<TopicSubopts>>)
    ensures Represents(UpsertCalls(calls), BrokerStoreCalls(calls))
    ensures Names(UpsertCalls(calls)) == FirstOccurrencesCalls(calls)
  {
    if calls != [] {
      var init, last := calls[..|calls| - 1], calls[|calls| - 1];
      TopicListIsOrderedMap(init);
      UpsertAllStores(UpsertCalls(init), last);
      UpsertAllInOrder(UpsertCalls(init), last);
    }
  }

  // ---------- What the multiplexer needs from a list ----------

  lemma {:induction false} UpsertAllNames(ts: seq<TopicSubopts>, added: seq<TopicSubopts>)
    requires UniqueNames(ts)
    ensures UniqueNames(UpsertAll(ts, added))
    ensures forall name :: HasName(UpsertAll(ts, added), name) <==> HasName(ts, name) || HasName(added, name)
  {
    if added != [] {
      var init, last := added[..|added| - 1], added[|added| - 1];
      UpsertAllNames(ts, init);
      var before, after := UpsertAll(ts, init), UpsertAll(ts, added);
      var i := IndexOf(before, last.topic);
      forall name
        ensures HasName(after, name) <==> HasName(ts, name) || HasName(added, name)
      {
        assert HasName(added, name) <==> HasName(init, name) || name == last.topic by {
          if HasName(init, name) {
            var j :| 0 <= j < |init| && init[j].topic == name;
            assert added[j].topic == name;
          }
          if HasName(added, name) && name != last.topic {
            var j :| 0 <= j < |added| && added[j].topic == name;
            assert init[j].topic == name;
          }
          if name == last.topic {
            assert added[|added| - 1].topic == name;
          }
        }
        assert HasName(after, name) <==> HasName(before, name) || name == last.topic by {
          if HasName(before, name) && name != last.topic {
            var j :| 0 <= j < |before| && before[j].topic == name;
            assert after[j].topic == name;
          }
          if HasName(after, name) && name != last.topic {
            var j :| 0 <= j < |after| && after[j].topic == name;
            assert before[j].topic == name;
          }
          assert after[i] == last;
        }
      }
    }
  }

  /** How many entries of the list carry this name: the copies the dispatch loop pushes. */
  function CountName(ts: seq<TopicSubopts>, name: string): nat {
    if ts == [] then 0
    else CountName(ts[..|ts| - 1], name) + (if ts[|ts| - 1].topic == name then 1 else 0)
  }

  lemma {:induction false} CountNameUnique(ts: seq<TopicSubopts>, name: string)
    requires UniqueNames(ts)
    ensures CountName(ts, name) == if HasName(ts, name) then 1 else 0
  {
    if ts != [] {
      var init, last := ts[..|ts| - 1], ts[|ts| - 1];
      CountNameUnique(init, name);
      if last.topic == name {
        assert ts[|ts| - 1].topic == name;
      } else if HasName(ts, name) {
        var j :| 0 <= j < |ts| && ts[j].topic == name;
        assert init[j].topic == name;
      }
    }
  }
}
