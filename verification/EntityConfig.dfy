/** An entity's configuration: a JSON object whose properties live at the top or one level down. */
module EntityConfig {
  import opened Mqtt

  datatype Json = Null | Str(s: string) | Arr(items: seq<string>) | Obj(fields: map<string, Json>)

  /** `objKey` is empty for a top-level property. */
  datatype Property = Property(key: string, objKey: string)

  type Object = map<string, Json>

  const AVAILABILITY_TOPIC := Property("topic", "availability")
  const PAYLOAD_AVAILABLE := Property("payload_available", "availability")
  const PAYLOAD_NOT_AVAILABLE := Property("payload_not_available", "availability")
  const COMMAND_TOPIC := Property("command_topic", "")
  const PAYLOAD_PRESS := Property("payload_press", "")

  /** `None` stands for the exception thrown when the parent is present but not an object. */
  function SetString(obj: Object, prop: Property, value: string): Option<Object> {
    if prop.objKey == "" then Some(obj[prop.key := Str(value)])
    else
      var parent := if prop.objKey in obj then obj[prop.objKey] else Obj(map[]);
      if parent.Obj? then Some(obj[prop.objKey := Obj(parent.fields[prop.key := Str(value)])]) else None
  }

  function SetNull(obj: Object, prop: Property): Object {
    if prop.objKey == "" then obj[prop.key := Null]
    else if prop.objKey in obj then obj
    else obj[prop.objKey := Null]
  }

  /** `None` stands for the exception of a missing key or a value of another type. */
  function At(obj: Object, prop: Property): Option<string> {
    if prop.objKey == "" then
      if prop.key in obj && obj[prop.key].Str? then Some(obj[prop.key].s) else None
    else if prop.objKey in obj && obj[prop.objKey].Obj? then
      var fields := obj[prop.objKey].fields;
      if prop.key in fields && fields[prop.key].Str? then Some(fields[prop.key].s) else None
    else None
  }

  function Contains(obj: Object, prop: Property): Option<bool> {
    if prop.objKey == "" then Some(prop.key in obj)
    else if prop.objKey !in obj then Some(false)
    else if obj[prop.objKey].Obj? then Some(prop.key in obj[prop.objKey].fields)
    else None
  }

  type Sets = seq<(Property, string)>

  /** A sequence of string sets on an empty configuration; `None` once one of them throws. */
  function SetAll(sets: Sets): Option<Object> {
    if sets == [] then Some(map[])
    else
      var before := SetAll(sets[..|sets| - 1]);
      if before == None then None
      else SetString(before.value, sets[|sets| - 1].0, sets[|sets| - 1].1)
  }

  /** The reference: one flat map from properties to their last value. */
  function FlatStore(sets: Sets): map<Property, string> {
    if sets == [] then map[]
    else FlatStore(sets[..|sets| - 1])[sets[|sets| - 1].0 := sets[|sets| - 1].1]
  }

  predicate Clash(p: Property, q: Property) {
    p.objKey == "" && q.objKey == p.key && q.objKey != ""
  }

  /** No name is both a top-level key and the name of a nested object. */
  ghost predicate NoClash(props: set<Property>) {
    forall p, q :: p in props && q in props ==> !Clash(p, q)
  }

  /** The object holds exactly the properties of the flat map. */
  ghost predicate Holds(obj: Object, m: map<Property, string>) {
    && (forall p :: p in m ==> At(obj, p) == Some(m[p]))
    && (forall name :: name in obj ==>
          if obj[name].Str? then Property(name, "") in m
          else
            && obj[name].Obj? && name != ""
            && obj[name].fields != map[]
            && forall key :: key in obj[name].fields ==> Property(key, name) in m)
  }

  lemma SetStringHolds(obj: Object, m: map<Property, string>, p: Property, value: string)
    requires Holds(obj, m) && NoClash(m.Keys + {p})
    ensures SetString(obj, p, value).Some?
    ensures Holds(SetString(obj, p, value).value, m[p := value])
  {
    var m' := m[p := value];
    if p.objKey == "" {
      var obj' := obj[p.key := Str(value)];
      forall q | q in m' ensures At(obj', q) == Some(m'[q]) {
        assert !Clash(p, q);
      }
    } else {
      if p.objKey in obj && obj[p.objKey].Str? {
        assert Clash(Property(p.objKey, ""), p);
        assert false;
      }
      var fields := if p.objKey in obj then obj[p.objKey].fields else map[];
      var obj' := obj[p.objKey := Obj(fields[p.key := Str(value)])];
      assert p.key in obj'[p.objKey].fields;
      forall q | q in m' ensures At(obj', q) == Some(m'[q]) {
        assert !Clash(q, p);
      }
    }
  }

  lemma {:induction false} SetAllHolds(sets: Sets)
    requires NoClash(FlatStore(sets).Keys)
    ensures SetAll(sets).Some? && Holds(SetAll(sets).value, FlatStore(sets))
  {
    if sets != [] {
      var init, last := sets[..|sets| - 1], sets[|sets| - 1];
      SetAllHolds(init);
      SetStringHolds(SetAll(init).value, FlatStore(init), last.0, last.1);
    }
  }

  /** Every property that was set is there and reads back its last value. */
  ghost predicate ReadsBack(sets: Sets) {
    SetAll(sets).Some? &&
    forall p :: p in FlatStore(sets) ==>
      Contains(SetAll(sets).value, p) == Some(true) && At(SetAll(sets).value, p) == Some(FlatStore(sets)[p])
  }

  /** The two-level object behaves as a flat map exactly when no name is used both as a top-level
      key and as the name of a nested object. */
  lemma ReadsBackIffNoClash(sets: Sets)
    ensures ReadsBack(sets) <==> NoClash(FlatStore(sets).Keys)
  {
    if NoClash(FlatStore(sets).Keys) {
      SetAllHolds(sets);
    }
  }

  /** And then `contains` tells the properties set from all others exactly for the properties that
      clash with none of them: for the others it reports a property that was never set, or throws. */
  lemma ContainsIsExactIff(sets: Sets, p: Property)
    requires NoClash(FlatStore(sets).Keys)
    ensures SetAll(sets).Some?
    ensures Contains(SetAll(sets).value, p) == Some(p in FlatStore(sets)) <==> NoClash(FlatStore(sets).Keys + {p})
  {
    var m := FlatStore(sets);
    SetAllHolds(sets);
    var obj := SetAll(sets).value;
    if NoClash(m.Keys + {p}) {
      UnsetIsAbsent(sets, p);
    } else {
      var q :| q in m && (Clash(p, q) || Clash(q, p));
      assert At(obj, q) == Some(m[q]);
    }
  }

  lemma UnsetIsAbsent(sets: Sets, p: Property)
    requires NoClash(FlatStore(sets).Keys + {p})
    ensures SetAll(sets).Some?
    ensures Contains(SetAll(sets).value, p) == Some(p in FlatStore(sets))
  {
    var m := FlatStore(sets);
    assert NoClash(m.Keys);
    SetAllHolds(sets);
    var obj := SetAll(sets).value;
    if p.objKey == "" {
      if p.key in obj && obj[p.key].Obj? {
        var key :| key in obj[p.key].fields;
        assert Clash(p, Property(key, p.key));
        assert false;
      }
    } else if p.objKey in obj && obj[p.objKey].Str? {
      assert Clash(Property(p.objKey, ""), p);
      assert false;
    }
  }

  /** The configuration object, updated in place. */
  class EntityCfg {
    var obj: Object

    constructor (init: Sets)
      requires SetAll(init).Some?
      ensures obj == SetAll(init).value
    {
      obj := map[];
      new;
      for i := 0 to |init|
        invariant Some(obj) == SetAll(init[..i])
      {
        assert init[..i + 1][..i] == init[..i];
        PrefixSets(init, i + 1);
        var ok := Set(init[i].0, init[i].1);
      }
      assert init[..|init|] == init;
    }

    /** Returns false, with nothing changed, where the source throws. */
    method Set(prop: Property, value: string) returns (ok: bool)
      modifies this
      ensures ok <==> SetString(old(obj), prop, value).Some?
      ensures obj == if ok then SetString(old(obj), prop, value).value else old(obj)
    {
      if prop.objKey == "" {
        obj := obj[prop.key := Str(value)];
        return true;
      }
      if prop.objKey !in obj {
        obj := obj[prop.objKey := Obj(map[])];
      }
      if !obj[prop.objKey].Obj? {
        return false;
      }
      obj := obj[prop.objKey := Obj(obj[prop.objKey].fields[prop.key := Str(value)])];
      return true;
    }

    method Clear(prop: Property)
      modifies this
      ensures obj == SetNull(old(obj), prop)
    {
      if prop.objKey == "" {
        obj := obj[prop.key := Null];
      } else if prop.objKey !in obj {
        obj := obj[prop.objKey := Null];
      }
    }
  }

  lemma {:induction false} PrefixSets(sets: Sets, n: nat)
    requires n <= |sets| && SetAll(sets).Some?
    ensures SetAll(sets[..n]).Some?
    decreases |sets|
  {
    if n == |sets| {
      assert sets[..n] == sets;
    } else {
      PrefixSets(sets[..|sets| - 1], n);
      assert sets[..|sets| - 1][..n] == sets[..n];
    }
  }

  /** Clearing a nested property makes a null parent where there was none, and does nothing to a parent
      that is there. So what follows depends on the parent: asking for the property, and setting it,
      throw exactly when the parent was absent or not an object. */
  lemma ClearThenThrowsIff(obj: Object, prop: Property, value: string)
    requires prop.objKey != ""
    ensures SetString(SetNull(obj, prop), prop, value) == None <==> !(prop.objKey in obj && obj[prop.objKey].Obj?)
    ensures Contains(SetNull(obj, prop), prop) == None <==> !(prop.objKey in obj && obj[prop.objKey].Obj?)
    ensures prop.objKey in obj ==> SetNull(obj, prop) == obj
  {
  }

  /** After any string sets, a nested property can no longer be set once it was cleared, exactly when no
      property of its object had been set. */
  lemma ClearBreaksIff(sets: Sets, prop: Property, value: string)
    requires prop.objKey != "" && NoClash(FlatStore(sets).Keys + {prop})
    ensures SetAll(sets).Some?
    ensures SetString(SetNull(SetAll(sets).value, prop), prop, value) == None
            <==> forall p :: p in FlatStore(sets) ==> p.objKey != prop.objKey
  {
    var m := FlatStore(sets);
    assert NoClash(m.Keys);
    SetAllHolds(sets);
    var obj := SetAll(sets).value;
    ClearThenThrowsIff(obj, prop, value);
    if prop.objKey in obj {
      if obj[prop.objKey].Obj? {
        var key :| key in obj[prop.objKey].fields;
        assert Property(key, prop.objKey) in m;
      } else {
        assert Clash(Property(prop.objKey, ""), prop);
        assert false;
      }
    } else {
      forall p | p in m ensures p.objKey != prop.objKey {
        assert At(obj, p) == Some(m[p]);
      }
    }
  }

  /** Clearing a top-level property makes it present with no string to read, forgets a nested object of
      that name with all its properties, and changes no other property; setting it again restores it. */
  lemma ClearTopLevel(obj: Object, prop: Property, other: Property, value: string)
    requires prop.objKey == ""
    ensures Contains(SetNull(obj, prop), prop) == Some(true) && At(SetNull(obj, prop), prop) == None
    ensures other != prop && !Clash(prop, other) ==>
      && Contains(SetNull(obj, prop), other) == Contains(obj, other)
      && At(SetNull(obj, prop), other) == At(obj, other)
    ensures Clash(prop, other) ==>
      && Contains(SetNull(obj, prop), other) == None && At(SetNull(obj, prop), other) == None
    ensures SetString(SetNull(obj, prop), prop, value) == SetString(obj, prop, value)
  {
    assert obj[prop.key := Null][prop.key := Str(value)] == obj[prop.key := Str(value)];
  }
}
