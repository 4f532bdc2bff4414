/**
 * The parameter side of the halftone control panel: the pane's parameter
 * record and its projection onto the processor's parameters, the
 * `blendToOffset2` curve, the defaults with overrides, and the `ani`
 * animation (the `applyAni` derivation and the triangle wave of `tick`).
 *
 * Numbers are `real`; `Math.floor` is `.Floor`. The clock (`Date.now`) is a
 * parameter of the methods that read it, and the Tweakpane widgets, the
 * `refresh` calls and frame scheduling are not modelled.
 */
module Pane {
  import opened Basics
  import opened Processor

  /** `HalftonePaneParams`: the 17 processor parameters plus the four pane-only ones. */
  datatype PaneParams = PaneParams(
    n: int, n2: int, blendValue: real, offset2: real, baseScale: real, gapPercent: real,
    threshold: real, soft: real, softFineness: real, contrast: real, contrastOnlyLuma: bool,
    bgColor: string, useColorBlend: real, monoColor: string, lumaToAlpha: bool,
    lumaToAlphaEdge0: real, lumaToAlphaEdge1: real,
    timeValue: real, aniMax: real, cycleTimeSec: Option<real>, offset2Peak: real)

  /** `Partial<HalftonePaneParams>`: a field is `Some` when the caller supplied it. */
  datatype PaneOverrides = PaneOverrides(
    n: Option<int>, n2: Option<int>, blendValue: Option<real>, offset2: Option<real>,
    baseScale: Option<real>, gapPercent: Option<real>, threshold: Option<real>, soft: Option<real>,
    softFineness: Option<real>, contrast: Option<real>, contrastOnlyLuma: Option<bool>,
    bgColor: Option<string>, useColorBlend: Option<real>, monoColor: Option<string>,
    lumaToAlpha: Option<bool>, lumaToAlphaEdge0: Option<real>, lumaToAlphaEdge1: Option<real>,
    timeValue: Option<real>, aniMax: Option<real>, cycleTimeSec: Option<real>, offset2Peak: Option<real>)

  /** Omitted `overrides` spread nothing. */
  const NoOverrides := PaneOverrides(None, None, None, None, None, None, None, None, None, None, None,
                                     None, None, None, None, None, None, None, None, None, None)

  // ---------------------------------------------------------------------
  // toProcessorParams and its inverse
  // ---------------------------------------------------------------------

  /**
   * `toProcessorParams`: the 17 processor fields, copied; only the four
   * pane-only fields are lost.
   */
  function ToProcessorParams(p: PaneParams): (r: ProcessorParams)
    ensures WithPaneFields(r, p.timeValue, p.aniMax, p.cycleTimeSec, p.offset2Peak) == p
  {
    ProcessorParams(p.n, p.n2, p.blendValue, p.offset2, p.baseScale, p.gapPercent,
                    p.threshold, p.soft, p.softFineness, p.contrast, p.contrastOnlyLuma,
                    p.bgColor, p.useColorBlend, p.monoColor, p.lumaToAlpha,
                    p.lumaToAlphaEdge0, p.lumaToAlphaEdge1)
  }

  /** A pane record made of processor parameters and the four pane-only fields. */
  function WithPaneFields(q: ProcessorParams, timeValue: real, aniMax: real, cycleTimeSec: Option<real>,
                          offset2Peak: real): PaneParams {
    PaneParams(q.n, q.n2, q.blendValue, q.offset2, q.baseScale, q.gapPercent,
               q.threshold, q.soft, q.softFineness, q.contrast, q.contrastOnlyLuma,
               q.bgColor, q.useColorBlend, q.monoColor, q.lumaToAlpha,
               q.lumaToAlphaEdge0, q.lumaToAlphaEdge1,
               timeValue, aniMax, cycleTimeSec, offset2Peak)
  }

  /** The projection keeps every processor field as it is and loses only the pane-only fields. */
  lemma ProjectionRoundTrip(p: PaneParams, q: ProcessorParams, timeValue: real, aniMax: real,
                            cycleTimeSec: Option<real>, offset2Peak: real)
    ensures ToProcessorParams(WithPaneFields(q, timeValue, aniMax, cycleTimeSec, offset2Peak)) == q
    ensures WithPaneFields(ToProcessorParams(p), p.timeValue, p.aniMax, p.cycleTimeSec, p.offset2Peak) == p
  {}

  /** Changing only the pane-only fields does not change what the processor sees. */
  lemma ProjectionIgnoresPaneFields(p: PaneParams, timeValue: real, aniMax: real, cycleTimeSec: Option<real>,
                                    offset2Peak: real)
    ensures ToProcessorParams(p.(timeValue := timeValue, aniMax := aniMax, cycleTimeSec := cycleTimeSec,
                                 offset2Peak := offset2Peak)) == ToProcessorParams(p)
  {}

  // ---------------------------------------------------------------------
  // blendToOffset2
  // ---------------------------------------------------------------------

  /**
   * `blendToOffset2(x, timeValue, peak)`: with `timeValue` outside (0, 1) a
   * single line between `peak` and 1; inside, a rise from 0 to `peak` on
   * [0, timeValue] and a fall from `peak` to 1 on [timeValue, 1].
   */
  function BlendToOffset2(x: real, timeValue: real, peak: real): (r: real)
    ensures 0.0 <= x <= 1.0 && (timeValue <= 0.0 || timeValue >= 1.0) ==> MinR(peak, 1.0) <= r <= MaxR(peak, 1.0)
    ensures 0.0 < timeValue < 1.0 && 0.0 <= x <= timeValue ==> MinR(0.0, peak) <= r <= MaxR(0.0, peak)
    ensures 0.0 < timeValue < 1.0 && timeValue < x <= 1.0 ==> MinR(peak, 1.0) <= r <= MaxR(peak, 1.0)
  {
    if timeValue <= 0.0 then
      LineBetween(x, peak, 1.0);
      peak - (peak - 1.0) * x
    else if timeValue >= 1.0 then
      LineBetween(x, 1.0, peak);
      1.0 + (peak - 1.0) * x
    else if x <= timeValue then
      RisingBetween(x, timeValue, peak);
      (x / timeValue) * peak
    else
      FallingBetween(x, timeValue, peak);
      peak + ((x - timeValue) / (1.0 - timeValue)) * (1.0 - peak)
  }

  /** On [0, 1] the line from `a` to `b` stays between them. */
  lemma LineBetween(x: real, a: real, b: real)
    ensures 0.0 <= x <= 1.0 ==> MinR(a, b) <= a + (b - a) * x <= MaxR(a, b)
  {
    if 0.0 <= x <= 1.0 {
      ScaleBetween(x, b - a);
    }
  }

  /** The rising piece on [0, timeValue] stays between 0 and `peak`. */
  lemma RisingBetween(x: real, timeValue: real, peak: real)
    requires 0.0 < timeValue
    ensures 0.0 <= x <= timeValue ==> MinR(0.0, peak) <= (x / timeValue) * peak <= MaxR(0.0, peak)
  {
    if 0.0 <= x <= timeValue {
      UnitFraction(x, timeValue);
      ScaleBetween(x / timeValue, peak);
    }
  }

  /** The falling piece on (timeValue, 1] stays between `peak` and 1. */
  lemma FallingBetween(x: real, timeValue: real, peak: real)
    requires timeValue < 1.0
    ensures timeValue < x <= 1.0 ==>
      MinR(peak, 1.0) <= peak + ((x - timeValue) / (1.0 - timeValue)) * (1.0 - peak) <= MaxR(peak, 1.0)
  {
    if timeValue < x <= 1.0 {
      UnitFraction(x - timeValue, 1.0 - timeValue);
      ScaleBetween((x - timeValue) / (1.0 - timeValue), 1.0 - peak);
    }
  }

  /** The default peak of the curve. */
  const DEFAULT_PEAK: real := 1.05

  /** `timeValue <= 0`: the line falls from `peak` at 0 to 1 at 1. */
  lemma BlendDescendingLine(timeValue: real, peak: real)
    requires timeValue <= 0.0
    ensures BlendToOffset2(0.0, timeValue, peak) == peak
    ensures BlendToOffset2(1.0, timeValue, peak) == 1.0
  {}

  /** `timeValue >= 1`: the line rises from 1 at 0 to `peak` at 1. */
  lemma BlendAscendingLine(timeValue: real, peak: real)
    requires timeValue >= 1.0
    ensures BlendToOffset2(0.0, timeValue, peak) == 1.0
    ensures BlendToOffset2(1.0, timeValue, peak) == peak
  {}

  /** Inside (0, 1): 0 at 0, `peak` at `timeValue`, 1 at 1. */
  lemma BlendPeakAtTimeValue(timeValue: real, peak: real)
    requires 0.0 < timeValue < 1.0
    ensures BlendToOffset2(0.0, timeValue, peak) == 0.0
    ensures BlendToOffset2(timeValue, timeValue, peak) == peak
    ensures BlendToOffset2(1.0, timeValue, peak) == 1.0
  {}

  function AbsR(x: real): real { if x < 0.0 then -x else x }

  /**
   * Inside (0, 1) the two pieces meet at `timeValue` without a jump: the
   * distance from `peak` shrinks in proportion to the distance from
   * `timeValue`, on either side.
   */
  lemma BlendMeetsAtTimeValue(x: real, timeValue: real, peak: real)
    requires 0.0 < timeValue < 1.0
    ensures x <= timeValue ==>
      AbsR(BlendToOffset2(x, timeValue, peak) - peak) == ((timeValue - x) / timeValue) * AbsR(peak)
    ensures x > timeValue ==>
      AbsR(BlendToOffset2(x, timeValue, peak) - peak) == ((x - timeValue) / (1.0 - timeValue)) * AbsR(1.0 - peak)
  {
    if x <= timeValue {
      RisingPiece(x, timeValue, peak);
      RisingDistance(x, timeValue, peak);
    } else {
      FallingPiece(x, timeValue, peak);
      FallingDistance(x, timeValue, peak);
    }
  }

  lemma RisingPiece(x: real, timeValue: real, peak: real)
    requires 0.0 < timeValue < 1.0 && x <= timeValue
    ensures BlendToOffset2(x, timeValue, peak) == (x / timeValue) * peak
  {}

  lemma FallingPiece(x: real, timeValue: real, peak: real)
    requires 0.0 < timeValue < 1.0 && timeValue < x
    ensures BlendToOffset2(x, timeValue, peak) - peak == ((x - timeValue) / (1.0 - timeValue)) * (1.0 - peak)
  {}

  lemma RisingDistance(x: real, timeValue: real, peak: real)
    requires 0.0 < timeValue && x <= timeValue
    ensures AbsR((x / timeValue) * peak - peak) == ((timeValue - x) / timeValue) * AbsR(peak)
  {
    var f := (timeValue - x) / timeValue;
    OneMinusRatio(x, timeValue);
    assert (x / timeValue) * peak - peak == -(f * peak);
    DivNonNeg(timeValue - x, timeValue);
    AbsScaled(f, peak);
  }

  lemma FallingDistance(x: real, timeValue: real, peak: real)
    requires timeValue < 1.0 && timeValue < x
    ensures AbsR(((x - timeValue) / (1.0 - timeValue)) * (1.0 - peak))
            == ((x - timeValue) / (1.0 - timeValue)) * AbsR(1.0 - peak)
  {
    DivNonNeg(x - timeValue, 1.0 - timeValue);
    AbsScaled((x - timeValue) / (1.0 - timeValue), 1.0 - peak);
  }

  /** `(t - x) / t` is what `x / t` leaves of 1. */
  lemma OneMinusRatio(x: real, t: real)
    requires t != 0.0
    ensures (t - x) / t == 1.0 - x / t
  {
    DivTimes(x, t);
    DivTimes(t - x, t);
    Complement(x / t, (t - x) / t, x, t);
  }

  lemma DivTimes(a: real, t: real)
    requires t != 0.0
    ensures (a / t) * t == a
  {}

  lemma Complement(g: real, f: real, x: real, t: real)
    requires t != 0.0 && g * t == x && f * t == t - x
    ensures f == 1.0 - g
  {
    var d := f + g - 1.0;
    assert d * t == f * t + g * t - t;
    ZeroProduct(d, t);
  }

  lemma ZeroProduct(d: real, t: real)
    requires t != 0.0 && d * t == 0.0
    ensures d == 0.0
  {}

  lemma DivNonNeg(a: real, b: real)
    requires a >= 0.0 && b > 0.0
    ensures a / b >= 0.0
  {
    assert (a / b) * b == a;
  }

  /** A non-negative factor comes out of the absolute value, whatever the sign. */
  lemma AbsScaled(f: real, y: real)
    requires f >= 0.0
    ensures AbsR(f * y) == f * AbsR(y) && AbsR(-(f * y)) == f * AbsR(y)
  {
    if y < 0.0 {
      assert f * y <= 0.0;
    } else {
      assert f * y >= 0.0;
    }
  }

  /** A fraction in [0, 1] of `a` lies between 0 and `a`. */
  lemma ScaleBetween(r: real, a: real)
    requires 0.0 <= r <= 1.0
    ensures MinR(0.0, a) <= r * a <= MaxR(0.0, a)
  {
    if a >= 0.0 {
      assert r * a <= 1.0 * a;
    } else {
      assert r * a >= 1.0 * a;
    }
  }

  lemma UnitFraction(a: real, b: real)
    requires 0.0 <= a <= b && b > 0.0
    ensures 0.0 <= a / b <= 1.0
  {
    var r := a / b;
    assert r * b == a;
  }

  // ---------------------------------------------------------------------
  // getDefaultHalftonePaneParams
  // ---------------------------------------------------------------------

  function Pick<T>(o: Option<T>, d: T): T {
    if o.Some? then o.value else d
  }

  /** `getDefaultHalftonePaneParams(overrides)`: the defaults, each replaced by the override when one is given. */
  function DefaultPaneParams(o: PaneOverrides): PaneParams {
    PaneParams(
      Pick(o.n, 2), Pick(o.n2, 3), Pick(o.blendValue, 0.3), Pick(o.offset2, 0.3),
      Pick(o.baseScale, 0.9), Pick(o.gapPercent, 10.0), Pick(o.threshold, 1.0), Pick(o.soft, 0.1),
      Pick(o.softFineness, 1.0), Pick(o.contrast, 0.0), Pick(o.contrastOnlyLuma, false),
      Pick(o.bgColor, "#111111"), Pick(o.useColorBlend, 1.0), Pick(o.monoColor, "#ffffff"),
      Pick(o.lumaToAlpha, false), Pick(o.lumaToAlphaEdge0, 0.0), Pick(o.lumaToAlphaEdge1, 1.0),
      Pick(o.timeValue, 0.5), Pick(o.aniMax, 8.0), o.cycleTimeSec, Pick(o.offset2Peak, DEFAULT_PEAK))
  }

  /** Every field of `p` given as an override. */
  function AllOf(p: PaneParams): PaneOverrides {
    PaneOverrides(
      Some(p.n), Some(p.n2), Some(p.blendValue), Some(p.offset2), Some(p.baseScale), Some(p.gapPercent),
      Some(p.threshold), Some(p.soft), Some(p.softFineness), Some(p.contrast), Some(p.contrastOnlyLuma),
      Some(p.bgColor), Some(p.useColorBlend), Some(p.monoColor), Some(p.lumaToAlpha),
      Some(p.lumaToAlphaEdge0), Some(p.lumaToAlphaEdge1), Some(p.timeValue), Some(p.aniMax),
      p.cycleTimeSec, Some(p.offset2Peak))
  }

  /** Without overrides: the documented defaults, and no cycle time (the pane then uses 4 s). */
  lemma DefaultsWithoutOverrides()
    ensures var d := DefaultPaneParams(NoOverrides);
      && d.n == 2 && d.n2 == 3 && d.blendValue == 0.3 && d.offset2 == 0.3 && d.timeValue == 0.5
      && d.aniMax == 8.0 && d.offset2Peak == 1.05 && d.baseScale == 0.9 && d.gapPercent == 10.0
      && d.threshold == 1.0 && d.soft == 0.1 && d.softFineness == 1.0 && d.contrast == 0.0
      && !d.contrastOnlyLuma && d.bgColor == "#111111" && d.useColorBlend == 1.0
      && d.monoColor == "#ffffff" && !d.lumaToAlpha && d.lumaToAlphaEdge0 == 0.0
      && d.lumaToAlphaEdge1 == 1.0 && d.cycleTimeSec.None?
  {}

  /** Overrides take precedence: overriding every field yields exactly the overriding record. */
  lemma OverridesTakePrecedence(p: PaneParams)
    ensures DefaultPaneParams(AllOf(p)) == p
  {}

  /** A single override changes only its own field of the defaults. */
  lemma SingleOverride(v: real)
    ensures DefaultPaneParams(NoOverrides.(timeValue := Some(v))) == DefaultPaneParams(NoOverrides).(timeValue := v)
    ensures DefaultPaneParams(NoOverrides.(aniMax := Some(v))) == DefaultPaneParams(NoOverrides).(aniMax := v)
  {}

  // ---------------------------------------------------------------------
  // applyAni and the triangle wave of tick
  // ---------------------------------------------------------------------

  /**
   * What `applyAni(v)` writes into the parameters: `e = min(v, aniMax)`
   * split into a whole level `n` and a blend in [0, 1), a second level at
   * most one above and within the maximum, `offset2` from the curve, and
   * `e` scaled into `useColorBlend` and `contrast`; only those six fields
   * change.
   */
  function AniApplied(p: PaneParams, v: real): (q: PaneParams)
    requires p.aniMax != 0.0
    ensures var e := MinR(v, p.aniMax);
      && q.n as real + q.blendValue == e
      && 0.0 <= q.blendValue < 1.0
      && q.n2 <= q.n + 1 && q.n2 <= p.aniMax.Floor
      && (q.n2 == q.n + 1 || q.n2 == p.aniMax.Floor)
      && q.useColorBlend * p.aniMax == e
      && q.contrast == q.useColorBlend * 200.0 - 100.0
      && q.offset2 == BlendToOffset2(q.blendValue, p.timeValue, p.offset2Peak)
      && q.(n := p.n, n2 := p.n2, blendValue := p.blendValue, offset2 := p.offset2,
            contrast := p.contrast, useColorBlend := p.useColorBlend) == p
  {
    var e := MinR(v, p.aniMax);
    var fl := e.Floor;
    var frac := e - fl as real;
    p.(n := fl, n2 := Min(fl + 1, p.aniMax.Floor), blendValue := frac,
       offset2 := BlendToOffset2(frac, p.timeValue, p.offset2Peak),
       contrast := (e / p.aniMax) * 200.0 - 100.0, useColorBlend := e / p.aniMax)
  }

  /** On the slider's range [0, aniMax] the blend is in [0, 1] and the contrast in [-100, 100]. */
  lemma AniInRange(p: PaneParams, v: real)
    requires p.aniMax > 0.0 && 0.0 <= v <= p.aniMax
    ensures var q := AniApplied(p, v);
      && 0.0 <= q.useColorBlend <= 1.0
      && -100.0 <= q.contrast <= 100.0
      && 0 <= q.n <= p.aniMax.Floor
  {
    var e := MinR(v, p.aniMax);
    assert e == v;
    UnitFraction(e, p.aniMax);
  }

  /** `Math.trunc`. */
  function Trunc(x: real): int {
    if x >= 0.0 then x.Floor else -((-x).Floor)
  }

  /** JavaScript's `%` on numbers: the remainder takes the sign of the dividend. */
  function JsRem(a: real, b: real): real
    requires b != 0.0
  {
    a - b * (Trunc(a / b) as real)
  }

  /** Scaling by a positive factor keeps order. */
  lemma ScaleLe(x: real, y: real, c: real)
    requires x <= y && c > 0.0
    ensures x * c <= y * c
  {}

  lemma ScaleLt(x: real, y: real, c: real)
    requires x < y && c > 0.0
    ensures x * c < y * c
  {}

  /** For a non-negative dividend and a positive divisor the remainder lies in [0, divisor). */
  lemma RemainderBounds(a: real, b: real)
    requires a >= 0.0 && b > 0.0
    ensures 0.0 <= JsRem(a, b) < b
    ensures JsRem(a, b) == a - b * ((a / b).Floor as real)
  {
    var q := a / b;
    var k := q.Floor;
    assert q * b == a;
    assert q >= 0.0;
    assert Trunc(q) == k;
    ScaleLe(k as real, q, b);
    ScaleLt(q, k as real + 1.0, b);
    assert (k as real + 1.0) * b == (k as real) * b + b;
    assert JsRem(a, b) == a - (k as real) * b;
    assert q * b < (k as real + 1.0) * b;
    assert a < (k as real) * b + b;
  }

  /**
   * The animation value in `tick`: `t = (elapsed / cycle) % 2`, then
   * `t * max` on the way up (`t <= 1`) and `(2 - t) * max` on the way down.
   */
  function TriangleWave(elapsed: real, cycleSec: real, max: real): (r: real)
    requires cycleSec != 0.0
    ensures elapsed >= 0.0 && cycleSec > 0.0 && max >= 0.0 ==> 0.0 <= r <= max
  {
    var t := JsRem(elapsed / cycleSec, 2.0);
    WaveBetween(elapsed, cycleSec, max);
    if t <= 1.0 then t * max else (2.0 - t) * max
  }

  /** Both sweeps of the wave stay in [0, max] for non-negative elapsed time. */
  lemma WaveBetween(elapsed: real, cycleSec: real, max: real)
    requires cycleSec != 0.0
    ensures var t := JsRem(elapsed / cycleSec, 2.0);
      elapsed >= 0.0 && cycleSec > 0.0 && max >= 0.0 ==>
        0.0 <= (if t <= 1.0 then t * max else (2.0 - t) * max) <= max
  {
    var a := elapsed / cycleSec;
    if elapsed >= 0.0 && cycleSec > 0.0 && max >= 0.0 {
      assert a >= 0.0;
      PhaseRange(a);
      var t := JsRem(a, 2.0);
      if t <= 1.0 {
        ScaleBetween(t, max);
      } else {
        ScaleBetween(2.0 - t, max);
      }
    }
  }

  /** For non-negative elapsed time the phase lies in [0, 2). */
  lemma PhaseRange(a: real)
    requires a >= 0.0
    ensures 0.0 <= JsRem(a, 2.0) < 2.0
    ensures JsRem(a, 2.0) == a - 2.0 * ((a / 2.0).Floor as real)
  {}

  /** The wave repeats every two cycle times, so one cycle time is one sweep up or down. */
  lemma TriangleWavePeriodic(elapsed: real, cycleSec: real, max: real)
    requires elapsed >= 0.0 && cycleSec > 0.0
    ensures TriangleWave(elapsed + 2.0 * cycleSec, cycleSec, max) == TriangleWave(elapsed, cycleSec, max)
  {
    var a := elapsed / cycleSec;
    var a2 := (elapsed + 2.0 * cycleSec) / cycleSec;
    assert (2.0 * cycleSec) / cycleSec == 2.0;
    assert a2 == a + (2.0 * cycleSec) / cycleSec;
    assert a2 / 2.0 == a / 2.0 + 1.0;
    assert (a2 / 2.0).Floor == (a / 2.0).Floor + 1;
    PhaseRange(a);
    PhaseRange(a2);
  }

  /** The wave starts at 0 and reaches `max` after one cycle time. */
  lemma TriangleWaveEnds(cycleSec: real, max: real)
    requires cycleSec > 0.0
    ensures TriangleWave(0.0, cycleSec, max) == 0.0
    ensures TriangleWave(cycleSec, cycleSec, max) == max
  {
    assert cycleSec / cycleSec == 1.0;
    assert (1.0 / 2.0).Floor == 0;
  }

  /**
   * The pane's animation state: the parameter object `applyAni` writes,
   * the `ani` slider, the blend display, the cycle time and the
   * play/pause state of `tick`.
   */
  class AniPane {
    var params: PaneParams
    var ani: real
    var blendDisplay: real
    var cycleTimeSec: real
    var animating: bool
    var startTime: real

    /** The `withAni` set-up: `ani` starts at 4 and the cycle time defaults to 4 s. */
    constructor(params: PaneParams)
      ensures this.params == params && ani == 4.0 && blendDisplay == params.blendValue
      ensures cycleTimeSec == Pick(params.cycleTimeSec, 4.0) && !animating && startTime == 0.0
    {
      this.params := params;
      ani := 4.0;
      blendDisplay := params.blendValue;
      cycleTimeSec := Pick(params.cycleTimeSec, 4.0);
      animating := false;
      startTime := 0.0;
    }

    /** `applyAni(v)`. */
    method ApplyAni(v: real)
      requires params.aniMax != 0.0
      modifies this
      ensures params == AniApplied(old(params), v)
      ensures blendDisplay == params.blendValue
      ensures ani == old(ani) && cycleTimeSec == old(cycleTimeSec)
      ensures animating == old(animating) && startTime == old(startTime)
    {
      var max := params.aniMax;
      var effectiveV := MinR(v, max);
      var fl := effectiveV.Floor;
      params := params.(n := fl);
      params := params.(n2 := Min(fl + 1, max.Floor));
      var frac := effectiveV - fl as real;
      params := params.(blendValue := frac);
      params := params.(offset2 := BlendToOffset2(frac, params.timeValue, params.offset2Peak));
      params := params.(contrast := (effectiveV / max) * 200.0 - 100.0);
      params := params.(useColorBlend := effectiveV / max);
      blendDisplay := frac;
    }

    /** The `ani` slider's change handler. */
    method OnAniChange(v: real)
      requires params.aniMax != 0.0
      modifies this
      ensures params == AniApplied(old(params), v) && ani == v && blendDisplay == params.blendValue
      ensures cycleTimeSec == old(cycleTimeSec) && animating == old(animating) && startTime == old(startTime)
    {
      ApplyAni(v);
      ani := v;
    }

    /** A change of the `aniMax` slider: the binding stores `m`, then the handler re-applies `ani`. */
    method OnAniMaxChange(m: real)
      requires m != 0.0
      modifies this
      ensures params == AniApplied(old(params).(aniMax := m), old(ani)) && ani == old(ani) && blendDisplay == params.blendValue
      ensures cycleTimeSec == old(cycleTimeSec) && animating == old(animating) && startTime == old(startTime)
    {
      params := params.(aniMax := m);
      ApplyAni(ani);
    }

    /** `startAnimation`: a second start while running changes nothing. */
    method StartAnimation(now: real)
      modifies this
      ensures old(animating) ==> animating && startTime == old(startTime)
      ensures !old(animating) ==> animating && startTime == now
      ensures params == old(params) && ani == old(ani) && blendDisplay == old(blendDisplay)
      ensures cycleTimeSec == old(cycleTimeSec)
    {
      if animating {
        return;
      }
      animating := true;
      startTime := now;
    }

    /** The play button: start when stopped, stop when running. */
    method TogglePlay(now: real)
      modifies this
      ensures animating == !old(animating)
      ensures startTime == if old(animating) then old(startTime) else now
      ensures params == old(params) && ani == old(ani) && blendDisplay == old(blendDisplay)
      ensures cycleTimeSec == old(cycleTimeSec)
    {
      if !animating {
        StartAnimation(now);
      } else {
        animating := false;
      }
    }

    /** One animation frame at clock time `now` (milliseconds). */
    method Tick(now: real)
      requires cycleTimeSec != 0.0 && params.aniMax != 0.0
      modifies this
      ensures !old(animating) ==> params == old(params) && ani == old(ani) && blendDisplay == old(blendDisplay)
      ensures old(animating) ==>
        var wave := TriangleWave((now - old(startTime)) / 1000.0, old(cycleTimeSec), old(params).aniMax);
        params == AniApplied(old(params), wave) && ani == wave && blendDisplay == params.blendValue
      ensures cycleTimeSec == old(cycleTimeSec) && animating == old(animating) && startTime == old(startTime)
    {
      if !animating {
        return;
      }
      var elapsed := (now - startTime) / 1000.0;
      var a := TriangleWave(elapsed, cycleTimeSec, params.aniMax);
      ApplyAni(a);
      ani := a;
    }
  }

  /** While animating, every frame keeps `ani` within [0, aniMax] and so the blend within [0, 1]. */
  lemma TickStaysInRange(p: PaneParams, now: real, startTime: real, cycleSec: real)
    requires now >= startTime && cycleSec > 0.0 && p.aniMax > 0.0
    ensures var wave := TriangleWave((now - startTime) / 1000.0, cycleSec, p.aniMax);
      && 0.0 <= wave <= p.aniMax
      && 0.0 <= AniApplied(p, wave).useColorBlend <= 1.0
  {
    var wave := TriangleWave((now - startTime) / 1000.0, cycleSec, p.aniMax);
    assert (now - startTime) / 1000.0 >= 0.0;
    AniInRange(p, wave);
  }
}
