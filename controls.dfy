// The debug page's hand-made controls: the slider's typed-value clamp, the
// colour input's `#`-prefixing and six-hex-digit check, and the onChange a
// control gets when it is bound to the parameter store. The DOM elements are
// modelled by the values they hold; what `onChange` receives is recorded in
// call order.

module Controls {
  import opened Basics
  import ParamStore

  // ---------------------------------------------------------------------
  // The slider
  // ---------------------------------------------------------------------

  /**
   * `Math.min(max, Math.max(min, v))`: inside the range when the range is
   * not empty, the value itself when it already lies in the range, the
   * nearer end otherwise; with `min > max` the result is always `max`.
   */
  function ClampToRange(v: real, min: real, max: real): (r: real)
    ensures min <= max ==> min <= r <= max
    ensures min <= v <= max ==> r == v
    ensures min <= max && v < min ==> r == min
    ensures v > max ==> r == max
    ensures min > max ==> r == max
  {
    MinR(max, MaxR(min, v))
  }

  /** Clamping a clamped value changes nothing (for a non-empty range). */
  lemma ClampIdempotent(v: real, min: real, max: real)
    requires min <= max
    ensures ClampToRange(ClampToRange(v, min, max), min, max) == ClampToRange(v, min, max)
  {
    var r := ClampToRange(v, min, max);
    assert min <= r <= max;
  }

  /** Clamping keeps the order of two entries. */
  lemma ClampMonotone(v: real, w: real, min: real, max: real)
    requires v <= w
    ensures ClampToRange(v, min, max) <= ClampToRange(w, min, max)
  {}

  /**
   * `createSlider`'s two inputs: the range input's value and the number
   * shown in the value input (the two-decimal formatting is not modelled);
   * `calls` are the values `onChange` received, in order.
   */
  class Slider {
    const min: real
    const max: real
    var rangeValue: real
    var shown: real
    var calls: seq<real>

    /** Both inputs start at the initial value; nothing has been reported. */
    constructor (min: real, max: real, value: real)
      ensures this.min == min && this.max == max
      ensures rangeValue == value && shown == value && calls == []
    {
      this.min := min;
      this.max := max;
      rangeValue := value;
      shown := value;
      calls := [];
    }

    /**
     * The value input's `change` event. `entry` is `Number(valueInput.value)`,
     * `None` when that is not finite. A finite entry is clamped, shown in
     * both inputs and reported; otherwise nothing is reported and the value
     * input goes back to the range input's value.
     */
    method ValueInputChange(entry: Option<real>)
      modifies this
      ensures entry.Some? ==>
        var v := ClampToRange(entry.value, min, max);
        rangeValue == v && shown == v && calls == old(calls) + [v]
      ensures entry.None? ==> rangeValue == old(rangeValue) && shown == old(rangeValue) && calls == old(calls)
    {
      if entry.Some? {
        var v := ClampToRange(entry.value, min, max);
        SyncDom(v);
        calls := calls + [v];
      } else {
        shown := rangeValue;
      }
    }

    /**
     * The range input's `input` event: the slider has been moved to `v`
     * (its `valueAsNumber`), which the value input then shows and which is
     * reported as is.
     */
    method RangeInput(v: real)
      modifies this
      ensures rangeValue == v && shown == v && calls == old(calls) + [v]
    {
      rangeValue := v;
      shown := v;
      calls := calls + [v];
    }

    /** `syncDom(v)`, also what the store subscription runs: both inputs show `v`, nothing is reported. */
    method SyncDom(v: real)
      modifies this
      ensures rangeValue == v && shown == v && calls == old(calls)
    {
      rangeValue := v;
      shown := v;
    }
  }

  /** Every value a slider reports from its value input lies in its range. */
  lemma TypedValuesInRange(min: real, max: real, entry: real)
    requires min <= max
    ensures min <= ClampToRange(entry, min, max) <= max
    ensures entry < min ==> ClampToRange(entry, min, max) == min
    ensures entry > max ==> ClampToRange(entry, min, max) == max
  {
    assert MaxR(min, entry) >= min;
  }

  // ---------------------------------------------------------------------
  // The colour input
  // ---------------------------------------------------------------------

  predicate StartsWithHash(v: string) {
    |v| > 0 && v[0] == '#'
  }

  /** `v.startsWith("#") ? v : "#" + v`. */
  function WithHash(v: string): (r: string)
    ensures StartsWithHash(r)
    ensures StartsWithHash(v) ==> r == v
    ensures !StartsWithHash(v) ==> |r| == |v| + 1 && r[1..] == v
  {
    if StartsWithHash(v) then v else "#" + v
  }

  /** Adding the `#` a second time changes nothing. */
  lemma WithHashIdempotent(v: string)
    ensures WithHash(WithHash(v)) == WithHash(v)
  {}

  /**
   * The colour a sync accepts: a value with a leading `#` and six hex digits,
   * or six hex digits without it; nothing else.
   */
  lemma AcceptedColours(v: string)
    ensures IsHexColor(WithHash(v)) <==> IsHexColor(v) || (|v| == 6 && AllHexDigits(v) && !StartsWithHash(v))
  {
    if !StartsWithHash(v) {
      var r := WithHash(v);
      if IsHexColor(r) {
        assert r[1..] == v;
      }
      if |v| == 6 && AllHexDigits(v) {
        assert r[1..] == v;
      }
    }
  }

  /**
   * The picker's initial value: the value when it is seven characters long,
   * otherwise the value when it starts with `#`, otherwise `#000000`.
   */
  function InitialPicker(value: string): (r: string)
    ensures |value| == 7 ==> r == value
    ensures StartsWithHash(value) ==> r == value
    ensures !StartsWithHash(value) && |value| != 7 ==> r == "#000000"
  {
    var first := if StartsWithHash(value) then value else "#000000";
    if |value| == 7 then value else first
  }

  /**
   * `createColorInput`'s colour picker and text box; `calls` are the values
   * `onChange` received, in order.
   */
  class ColorInput {
    var picker: string
    var text: string
    var calls: seq<string>

    /** The picker starts at `InitialPicker(value)`, the text box at the value itself. */
    constructor (value: string)
      ensures picker == InitialPicker(value) && text == value && calls == []
    {
      picker := if StartsWithHash(value) then value else "#000000";
      if |value| == 7 {
        picker := value;
      }
      text := value;
      calls := [];
    }

    /**
     * `syncToParams(v)`, run by both inputs' events: the `#`-prefixed value,
     * when it is a six-digit hex colour, is put in both inputs and reported;
     * anything else changes nothing.
     */
    method SyncToParams(v: string)
      modifies this
      ensures var h := WithHash(v);
        if IsHexColor(h) then picker == h && text == h && calls == old(calls) + [h]
        else picker == old(picker) && text == old(text) && calls == old(calls)
      ensures old(Agreed()) || IsHexColor(WithHash(v)) ==> Agreed()
    {
      var h := v;
      if !StartsWithHash(h) {
        h := "#" + h;
      }
      if IsHexColor(h) {
        picker := h;
        text := h;
        calls := calls + [h];
      }
    }

    /**
     * The picker's `input` event: the picker has been set to `v`, which is
     * then synced. A colour the sync accepts ends up in both inputs.
     */
    method PickerInput(v: string)
      modifies this
      ensures var h := WithHash(v);
        if IsHexColor(h) then picker == h && text == h && calls == old(calls) + [h]
        else picker == v && text == old(text) && calls == old(calls)
      ensures IsHexColor(WithHash(v)) ==> Agreed()
    {
      picker := v;
      SyncToParams(v);
    }

    /**
     * The text box's `change` event: the text box holds what was typed, `v`,
     * which is then synced. An entry the sync refuses stays in the text box
     * while the picker keeps its colour, so the two inputs no longer agree.
     */
    method TextChange(v: string)
      modifies this
      ensures var h := WithHash(v);
        if IsHexColor(h) then picker == h && text == h && calls == old(calls) + [h]
        else picker == old(picker) && text == v && calls == old(calls)
      ensures IsHexColor(WithHash(v)) <==> Agreed()
    {
      text := v;
      SyncToParams(v);
    }

    /** `syncFromStore(v)`: like `syncToParams`, but nothing is reported. */
    method SyncFromStore(v: string)
      modifies this
      ensures calls == old(calls)
      ensures var h := WithHash(v);
        if IsHexColor(h) then picker == h && text == h
        else picker == old(picker) && text == old(text)
      ensures old(Agreed()) || IsHexColor(WithHash(v)) ==> Agreed()
    {
      var h := if StartsWithHash(v) then v else "#" + v;
      if IsHexColor(h) {
        picker := h;
        text := h;
      }
    }

    /** Both inputs show the same valid colour. */
    predicate Agreed()
      reads this
    {
      picker == text && IsHexColor(text)
    }
  }

  // ---------------------------------------------------------------------
  // The store-bound onChange
  // ---------------------------------------------------------------------

  /** What a store-bound change does, in order: the store's callbacks, then a render request. */
  datatype Action = StoreCallback(event: ParamStore.Event) | RenderScheduled

  function StoreCallbacks(events: seq<ParamStore.Event>): (r: seq<Action>)
    ensures |r| == |events|
    ensures forall i :: 0 <= i < |r| ==> r[i] == StoreCallback(events[i])
  {
    if events == [] then [] else [StoreCallback(events[0])] + StoreCallbacks(events[1..])
  }

  /**
   * The `onChange` of a control bound to the store:
   * `paramStore.set(key, v)` and then `onScheduleRender?.()`, which is
   * absent when `scheduleRender` is false.
   */
  method StoreBoundChange(store: ParamStore.Store, key: string, v: Value, scheduleRender: bool) returns (trace: seq<Action>)
    requires store.Valid() && ParamStore.NumericWrite(key, v)
    modifies store
    ensures store.Valid()
    ensures store.params == ParamStore.Written(old(store.params), key, v)
    ensures trace == StoreCallbacks(ParamStore.SetCallbacks(store.subs, store.setListeners, key, v, store.params))
                     + (if scheduleRender then [RenderScheduled] else [])
  {
    var events := store.Set(key, v);
    trace := StoreCallbacks(events);
    if scheduleRender {
      trace := trace + [RenderScheduled];
    }
  }

  /** The render request, when there is one, comes last, after every store callback. */
  lemma RenderComesLast(events: seq<ParamStore.Event>, scheduleRender: bool)
    ensures var t := StoreCallbacks(events) + (if scheduleRender then [RenderScheduled] else []);
      && (scheduleRender ==> |t| == |events| + 1 && t[|t| - 1] == RenderScheduled)
      && (forall i :: 0 <= i < |events| ==> t[i] == StoreCallback(events[i]))
      && (forall i :: 0 <= i < |t| && t[i] == RenderScheduled ==> i == |events|)
  {}
}
