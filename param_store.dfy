/**
 * The parameter store behind the debug panels: one key/value record, a
 * subscriber list per key, a list of "any key was set" listeners, and the
 * set of keys the timeline marks as changed with its own listeners.
 *
 * Callbacks are opaque: a listener is an identifier, and calling it is
 * recorded as an `Event` in the list a method returns, in call order. What
 * a listener does when called is not part of this model.
 */
module ParamStore {
  import opened Basics
  import opened Pane

  type Listener = nat

  /** One callback invocation, in the order the store makes them. */
  datatype Event =
    | Notified(fn: Listener, key: string, value: Value)  // a per-key subscriber received a value
    | SetHeard(fn: Listener, key: string)               // a `subscribeToSet` listener heard a key
    | ChangedHeard(fn: Listener, keys: set<string>)      // a changed-keys listener received the set

  /** The key whose write recomputes `offset2`. */
  const BLEND_KEY := "blendValue"
  const OFFSET2_KEY := "offset2"

  // ---------------------------------------------------------------------
  // Broadcasts
  // ---------------------------------------------------------------------

  /** Every subscriber in `list`, in order, receives `v` for key `k`. */
  function ValueEvents(list: seq<Listener>, k: string, v: Value): (r: seq<Event>)
    ensures |r| == |list|
    ensures forall i :: 0 <= i < |list| ==> r[i] == Notified(list[i], k, v)
  {
    if list == [] then [] else ValueEvents(list[..|list| - 1], k, v) + [Notified(list[|list| - 1], k, v)]
  }

  /** Every set-listener in `list`, in order, hears key `k`. */
  function KeyEvents(list: seq<Listener>, k: string): (r: seq<Event>)
    ensures |r| == |list|
    ensures forall i :: 0 <= i < |list| ==> r[i] == SetHeard(list[i], k)
  {
    if list == [] then [] else KeyEvents(list[..|list| - 1], k) + [SetHeard(list[|list| - 1], k)]
  }

  /** Every changed-keys listener in `list`, in order, receives `keys`. */
  function KeysEvents(list: seq<Listener>, keys: set<string>): (r: seq<Event>)
    ensures |r| == |list|
    ensures forall i :: 0 <= i < |list| ==> r[i] == ChangedHeard(list[i], keys)
  {
    if list == [] then [] else KeysEvents(list[..|list| - 1], keys) + [ChangedHeard(list[|list| - 1], keys)]
  }

  /** `for (const fn of list) fn(value)`. */
  method CallSubscribers(list: seq<Listener>, k: string, v: Value) returns (events: seq<Event>)
    ensures events == ValueEvents(list, k, v)
  {
    events := [];
    var i := 0;
    while i < |list|
      invariant 0 <= i <= |list|
      invariant events == ValueEvents(list[..i], k, v)
    {
      assert list[..i + 1][..i] == list[..i];
      events := events + [Notified(list[i], k, v)];
      i := i + 1;
    }
    assert list[..i] == list;
  }

  /** `setListeners.forEach((fn) => fn(k))`. */
  method CallSetListeners(list: seq<Listener>, k: string) returns (events: seq<Event>)
    ensures events == KeyEvents(list, k)
  {
    events := [];
    var i := 0;
    while i < |list|
      invariant 0 <= i <= |list|
      invariant events == KeyEvents(list[..i], k)
    {
      assert list[..i + 1][..i] == list[..i];
      events := events + [SetHeard(list[i], k)];
      i := i + 1;
    }
    assert list[..i] == list;
  }

  /** `changedKeysListeners.forEach((fn) => fn(changedKeys))`. */
  method CallChangedListeners(list: seq<Listener>, keys: set<string>) returns (events: seq<Event>)
    ensures events == KeysEvents(list, keys)
  {
    events := [];
    var i := 0;
    while i < |list|
      invariant 0 <= i <= |list|
      invariant events == KeysEvents(list[..i], keys)
    {
      assert list[..i + 1][..i] == list[..i];
      events := events + [ChangedHeard(list[i], keys)];
      i := i + 1;
    }
    assert list[..i] == list;
  }

  /** `list.filter((f) => f !== fn)`. */
  function Without(list: seq<Listener>, fn: Listener): (r: seq<Listener>)
    ensures fn !in r
    ensures forall g :: g != fn ==> (g in r <==> g in list)
    ensures |r| <= |list|
  {
    if list == [] then []
    else if list[0] == fn then Without(list[1..], fn)
    else [list[0]] + Without(list[1..], fn)
  }

  /** Removing a listener that is not in the list leaves the list as it is. */
  lemma {:induction false} WithoutAbsent(list: seq<Listener>, fn: Listener)
    requires fn !in list
    ensures Without(list, fn) == list
  {
    if list != [] {
      WithoutAbsent(list[1..], fn);
      assert [list[0]] + list[1..] == list;
    }
  }

  /** Removing distributes over appending, so the kept listeners keep their order. */
  lemma {:induction false} WithoutAppend(xs: seq<Listener>, ys: seq<Listener>, fn: Listener)
    ensures Without(xs + ys, fn) == Without(xs, fn) + Without(ys, fn)
  {
    if xs == [] {
      assert xs + ys == ys;
    } else {
      assert (xs + ys)[1..] == xs[1..] + ys;
      assert (xs + ys)[0] == xs[0];
      WithoutAppend(xs[1..], ys, fn);
    }
  }

  // ---------------------------------------------------------------------
  // The record
  // ---------------------------------------------------------------------

  /** `{ ...initial }`: one entry per field; `cycleTimeSec` only when it is present. */
  function ParamsToMap(p: PaneParams): (m: map<string, Value>)
    ensures "timeValue" in m && m["timeValue"] == Num(p.timeValue)
    ensures "offset2Peak" in m && m["offset2Peak"] == Num(p.offset2Peak)
    ensures ("cycleTimeSec" in m) == p.cycleTimeSec.Some?
  {
    var m := map[
      "n" := Num(p.n as real), "n2" := Num(p.n2 as real), BLEND_KEY := Num(p.blendValue),
      OFFSET2_KEY := Num(p.offset2), "baseScale" := Num(p.baseScale), "gapPercent" := Num(p.gapPercent),
      "threshold" := Num(p.threshold), "soft" := Num(p.soft), "softFineness" := Num(p.softFineness),
      "contrast" := Num(p.contrast), "contrastOnlyLuma" := Bool(p.contrastOnlyLuma),
      "bgColor" := Str(p.bgColor), "useColorBlend" := Num(p.useColorBlend), "monoColor" := Str(p.monoColor),
      "lumaToAlpha" := Bool(p.lumaToAlpha), "lumaToAlphaEdge0" := Num(p.lumaToAlphaEdge0),
      "lumaToAlphaEdge1" := Num(p.lumaToAlphaEdge1), "timeValue" := Num(p.timeValue),
      "aniMax" := Num(p.aniMax), "offset2Peak" := Num(p.offset2Peak)];
    if p.cycleTimeSec.Some? then m["cycleTimeSec" := Num(p.cycleTimeSec.value)] else m
  }

  /** The two numbers `blendToOffset2` reads from the record are present and numeric. */
  predicate CurveInputs(params: map<string, Value>) {
    && "timeValue" in params && params["timeValue"].Num?
    && "offset2Peak" in params && params["offset2Peak"].Num?
  }

  /** The declared type of the keys `set` does arithmetic with: a number. */
  predicate NumericWrite(key: string, value: Value) {
    key == BLEND_KEY || key == "timeValue" || key == "offset2Peak" ==> value.Num?
  }

  /** The record after `set(key, value)`. */
  function Written(params: map<string, Value>, key: string, value: Value): (r: map<string, Value>)
    requires CurveInputs(params) && NumericWrite(key, value)
    ensures key in r && r[key] == value
    ensures r.Keys == params.Keys + {key} + (if key == BLEND_KEY then {OFFSET2_KEY} else {})
    ensures forall k :: k in params && k != key && (key == BLEND_KEY ==> k != OFFSET2_KEY) ==> r[k] == params[k]
  {
    var p1 := params[key := value];
    if key == BLEND_KEY then
      p1[OFFSET2_KEY := Num(BlendToOffset2(value.num, p1["timeValue"].num, p1["offset2Peak"].num))]
    else p1
  }

  function SubsOf(subs: map<string, seq<Listener>>, key: string): seq<Listener> {
    if key in subs then subs[key] else []
  }

  /** The callbacks `set(key, value)` makes, given the record after the write. */
  function SetCallbacks(subs: map<string, seq<Listener>>, setListeners: seq<Listener>,
                        key: string, value: Value, after: map<string, Value>): seq<Event>
  {
    (if key == BLEND_KEY && OFFSET2_KEY in after
     then ValueEvents(SubsOf(subs, OFFSET2_KEY), OFFSET2_KEY, after[OFFSET2_KEY])
          + KeyEvents(setListeners, OFFSET2_KEY)
     else [])
    + ValueEvents(SubsOf(subs, key), key, value) + KeyEvents(setListeners, key)
  }

  // ---------------------------------------------------------------------
  // The store
  // ---------------------------------------------------------------------

  /** `createParamStore(initial)`. */
  class Store {
    var params: map<string, Value>
    var subs: map<string, seq<Listener>>
    var setListeners: seq<Listener>
    var changedKeys: set<string>
    var changedKeysListeners: seq<Listener>

    predicate Valid()
      reads this
    {
      CurveInputs(params)
    }

    /** The store starts from its own copy of `initial`, with no subscribers and no changed keys. */
    constructor(initial: PaneParams)
      ensures Valid()
      ensures params == ParamsToMap(initial)
      ensures subs == map[] && setListeners == [] && changedKeys == {} && changedKeysListeners == []
    {
      params := ParamsToMap(initial);
      subs := map[];
      setListeners := [];
      changedKeys := {};
      changedKeysListeners := [];
    }

    /** `get(key)`: `undefined` for a key the record does not hold. */
    function Get(key: string): (v: Value)
      reads this
      ensures key !in params ==> v == Undefined
      ensures key in params ==> v == params[key]
    {
      if key in params then params[key] else Undefined
    }

    /** `getChangedKeys()`. */
    function GetChangedKeys(): (keys: set<string>)
      reads this
    {
      changedKeys
    }

    /** `set(key, value)`. */
    method Set(key: string, value: Value) returns (events: seq<Event>)
      requires Valid() && NumericWrite(key, value)
      modifies this
      ensures Valid()
      ensures params == Written(old(params), key, value)
      ensures events == SetCallbacks(subs, setListeners, key, value, params)
      ensures subs == old(subs) && setListeners == old(setListeners)
      ensures changedKeys == old(changedKeys) && changedKeysListeners == old(changedKeysListeners)
    {
      params := params[key := value];
      events := [];
      if key == BLEND_KEY {
        params := params[OFFSET2_KEY := Num(BlendToOffset2(value.num, params["timeValue"].num, params["offset2Peak"].num))];
        var e1 := NotifyKey(OFFSET2_KEY, params[OFFSET2_KEY]);
        var e2 := CallSetListeners(setListeners, OFFSET2_KEY);
        events := e1 + e2;
      }
      var e3 := NotifyKey(key, value);
      var e4 := CallSetListeners(setListeners, key);
      events := events + e3 + e4;
    }

    /** `notify(key, value)`: the key's subscribers in order, none when it has no list. */
    method NotifyKey(key: string, value: Value) returns (events: seq<Event>)
      ensures events == ValueEvents(SubsOf(subs, key), key, value)
    {
      events := [];
      if key in subs {
        events := CallSubscribers(subs[key], key, value);
      }
    }

    /** `subscribe(key, fn)`: appended to the key's list, created when missing. */
    method Subscribe(key: string, fn: Listener)
      modifies this
      ensures subs == old(subs)[key := SubsOf(old(subs), key) + [fn]]
      ensures params == old(params) && setListeners == old(setListeners)
      ensures changedKeys == old(changedKeys) && changedKeysListeners == old(changedKeysListeners)
    {
      if key !in subs {
        subs := subs[key := []];
      }
      subs := subs[key := subs[key] + [fn]];
    }

    /** The function `subscribe(key, fn)` returns: drops `fn` from that key's list only. */
    method Unsubscribe(key: string, fn: Listener)
      requires key in subs
      modifies this
      ensures subs == old(subs)[key := Without(old(subs)[key], fn)]
      ensures params == old(params) && setListeners == old(setListeners)
      ensures changedKeys == old(changedKeys) && changedKeysListeners == old(changedKeysListeners)
    {
      subs := subs[key := Without(subs[key], fn)];
    }

    /** `subscribeToSet(fn)`. */
    method SubscribeToSet(fn: Listener)
      modifies this
      ensures setListeners == old(setListeners) + [fn]
      ensures params == old(params) && subs == old(subs)
      ensures changedKeys == old(changedKeys) && changedKeysListeners == old(changedKeysListeners)
    {
      setListeners := setListeners + [fn];
    }

    /** The function `subscribeToSet(fn)` returns. */
    method UnsubscribeFromSet(fn: Listener)
      modifies this
      ensures setListeners == Without(old(setListeners), fn)
      ensures params == old(params) && subs == old(subs)
      ensures changedKeys == old(changedKeys) && changedKeysListeners == old(changedKeysListeners)
    {
      setListeners := Without(setListeners, fn);
    }

    /** `setChangedKeys(keys)`: stores the set and hands it to every changed-keys listener. */
    method SetChangedKeys(keys: set<string>) returns (events: seq<Event>)
      modifies this
      ensures GetChangedKeys() == keys
      ensures events == KeysEvents(changedKeysListeners, keys)
      ensures params == old(params) && subs == old(subs) && setListeners == old(setListeners)
      ensures changedKeysListeners == old(changedKeysListeners)
    {
      changedKeys := keys;
      events := CallChangedListeners(changedKeysListeners, changedKeys);
    }

    /** `subscribeChangedKeys(fn)`: registered, then called at once with the current set. */
    method SubscribeChangedKeys(fn: Listener) returns (events: seq<Event>)
      modifies this
      ensures changedKeysListeners == old(changedKeysListeners) + [fn]
      ensures events == [ChangedHeard(fn, changedKeys)]
      ensures params == old(params) && subs == old(subs) && setListeners == old(setListeners)
      ensures changedKeys == old(changedKeys)
    {
      changedKeysListeners := changedKeysListeners + [fn];
      events := [ChangedHeard(fn, changedKeys)];
    }

    /** The function `subscribeChangedKeys(fn)` returns. */
    method UnsubscribeChangedKeys(fn: Listener)
      modifies this
      ensures changedKeysListeners == Without(old(changedKeysListeners), fn)
      ensures params == old(params) && subs == old(subs) && setListeners == old(setListeners)
      ensures changedKeys == old(changedKeys)
    {
      changedKeysListeners := Without(changedKeysListeners, fn);
    }
  }

  // ---------------------------------------------------------------------
  // Properties
  // ---------------------------------------------------------------------

  /**
   * After `set(k, v)`, `get(k)` is `v`; every other key keeps its value,
   * except `offset2`, which a write of `blendValue` recomputes from the curve.
   */
  lemma SetThenGet(params: map<string, Value>, key: string, value: Value)
    requires CurveInputs(params) && NumericWrite(key, value)
    ensures var after := Written(params, key, value);
      && key in after && after[key] == value
      && after.Keys == params.Keys + {key} + (if key == BLEND_KEY then {OFFSET2_KEY} else {})
      && (forall k :: k in params && k != key && (k != OFFSET2_KEY || key != BLEND_KEY) ==> after[k] == params[k])
      && CurveInputs(after)
  {}

  /** Writing `blendValue` sets `offset2` to the curve's value at the new blend; other writes leave it. */
  lemma BlendCouplesOffset2(params: map<string, Value>, key: string, value: Value)
    requires CurveInputs(params) && NumericWrite(key, value)
    ensures key == BLEND_KEY ==>
      Written(params, key, value)[OFFSET2_KEY]
        == Num(BlendToOffset2(value.num, params["timeValue"].num, params["offset2Peak"].num))
    ensures key != BLEND_KEY && key != OFFSET2_KEY && OFFSET2_KEY in params ==>
      Written(params, key, value)[OFFSET2_KEY] == params[OFFSET2_KEY]
  {}

  /** Every event of a per-key broadcast is about that key. */
  lemma ValueEventsAbout(list: seq<Listener>, k: string, v: Value)
    ensures forall e :: e in ValueEvents(list, k, v) ==> e.Notified? && e.key == k && e.value == v
  {
    var r := ValueEvents(list, k, v);
    forall e | e in r
      ensures e.Notified? && e.key == k && e.value == v
    {
      var i :| 0 <= i < |r| && r[i] == e;
    }
  }

  lemma KeyEventsAbout(list: seq<Listener>, k: string)
    ensures forall e :: e in KeyEvents(list, k) ==> e.SetHeard? && e.key == k
  {
    var r := KeyEvents(list, k);
    forall e | e in r
      ensures e.SetHeard? && e.key == k
    {
      var i :| 0 <= i < |r| && r[i] == e;
    }
  }

  /**
   * For a `blendValue` write, every `offset2` callback comes before every
   * `blendValue` callback; `offset2` subscribers receive the recomputed value
   * and `blendValue` subscribers the written one; each set-listener hears
   * both keys, `offset2` first.
   */
  lemma BlendNotifiesOffset2First(subs: map<string, seq<Listener>>, setListeners: seq<Listener>,
                                  params: map<string, Value>, value: Value)
    requires CurveInputs(params) && value.Num?
    ensures var after := Written(params, BLEND_KEY, value);
      var ev := SetCallbacks(subs, setListeners, BLEND_KEY, value, after);
      var m := |SubsOf(subs, OFFSET2_KEY)| + |setListeners|;
      && |ev| == m + |SubsOf(subs, BLEND_KEY)| + |setListeners|
      && (forall i :: 0 <= i < m ==> !ev[i].ChangedHeard? && ev[i].key == OFFSET2_KEY)
      && (forall i :: m <= i < |ev| ==> !ev[i].ChangedHeard? && ev[i].key == BLEND_KEY)
      && (forall i :: 0 <= i < |ev| && ev[i].Notified? && ev[i].key == OFFSET2_KEY ==>
            ev[i].value == after[OFFSET2_KEY])
      && (forall i :: 0 <= i < |ev| && ev[i].Notified? && ev[i].key == BLEND_KEY ==> ev[i].value == value)
  {
    var after := Written(params, BLEND_KEY, value);
    var a := ValueEvents(SubsOf(subs, OFFSET2_KEY), OFFSET2_KEY, after[OFFSET2_KEY]);
    var b := KeyEvents(setListeners, OFFSET2_KEY);
    var c := ValueEvents(SubsOf(subs, BLEND_KEY), BLEND_KEY, value);
    var d := KeyEvents(setListeners, BLEND_KEY);
    var ev := SetCallbacks(subs, setListeners, BLEND_KEY, value, after);
    assert ev == a + b + c + d;
  }

  /** Any other key is heard by its own subscribers, then by every set-listener, and nothing else is called. */
  lemma OtherKeyNotifiesOnlyItself(subs: map<string, seq<Listener>>, setListeners: seq<Listener>,
                                   params: map<string, Value>, key: string, value: Value)
    requires CurveInputs(params) && NumericWrite(key, value) && key != BLEND_KEY
    ensures var ev := SetCallbacks(subs, setListeners, key, value, Written(params, key, value));
      && |ev| == |SubsOf(subs, key)| + |setListeners|
      && (forall i :: 0 <= i < |ev| ==> !ev[i].ChangedHeard? && ev[i].key == key)
      && (forall i :: 0 <= i < |SubsOf(subs, key)| ==> ev[i] == Notified(SubsOf(subs, key)[i], key, value))
  {
    var ev := SetCallbacks(subs, setListeners, key, value, Written(params, key, value));
    assert ev == ValueEvents(SubsOf(subs, key), key, value) + KeyEvents(setListeners, key);
  }

  /**
   * Subscribing a new listener and calling the returned function restores the
   * key's list; other keys' lists are never touched.
   */
  lemma SubscribeUnsubscribeRoundTrip(subs: map<string, seq<Listener>>, key: string, fn: Listener)
    requires key in subs ==> fn !in subs[key]
    ensures var added := subs[key := SubsOf(subs, key) + [fn]];
      var removed := added[key := Without(added[key], fn)];
      && removed[key] == SubsOf(subs, key)
      && (forall k :: k in subs && k != key ==> removed[k] == subs[k])
  {
    var list := SubsOf(subs, key);
    WithoutAppend(list, [fn], fn);
    WithoutAbsent(list, fn);
    assert Without([fn], fn) == [];
  }

  /** Unsubscribing drops only `fn`: the other listeners stay, in their order. */
  lemma UnsubscribeKeepsOthers(list: seq<Listener>, fn: Listener, xs: seq<Listener>, ys: seq<Listener>)
    requires list == xs + [fn] + ys && fn !in xs && fn !in ys
    ensures Without(list, fn) == xs + ys
  {
    WithoutAppend(xs + [fn], ys, fn);
    WithoutAppend(xs, [fn], fn);
    WithoutAbsent(xs, fn);
    WithoutAbsent(ys, fn);
    assert Without([fn], fn) == [];
  }
}
