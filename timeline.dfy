/**
 * The timeline's state and keyframe logic: sampling a track at a time
 * (lookup in the time-sorted keyframes, then step, linear, boolean or
 * per-channel colour interpolation), value comparison, time clamping and
 * snapping, the play clock's wrap-around, frame stepping, and the track
 * list operations.
 *
 * Random track ids are parameters; the clock is a parameter of `Play` and
 * `Tick`. Writing sampled values back into the parameter store
 * (`applyKeyframes`, `recomputeChangedKeys`) and the DOM are not modelled.
 */
module Timeline {
  import opened Basics
  import opened SatRgb
  import opened Pane

  datatype Interpolation = Linear | Step

  datatype Keyframe = Keyframe(t: real, value: Value)

  datatype Track = Track(id: string, paramKey: string, displayLabel: string, keyframes: seq<Keyframe>,
                         interpolation: Interpolation)

  datatype TimelineState = TimelineState(currentTime: real, playing: bool, duration: real, frameStep: real,
                                         tracks: seq<Track>)

  const DEFAULT_DURATION: real := 10.0
  const DEFAULT_FRAME_STEP: real := 1.0 / 30.0
  /** The shortest duration `loadState` accepts. */
  const MIN_DURATION: real := 0.1
  /** The tolerance of `valueEquals` on numbers. */
  const EPSILON: real := 1.0 / 1000000000.0

  // ---------------------------------------------------------------------
  // Sorting keyframes by time
  // ---------------------------------------------------------------------

  predicate SortedByTime(s: seq<Keyframe>) {
    forall i, j :: 0 <= i < j < |s| ==> s[i].t <= s[j].t
  }

  /** Where a keyframe at time `k.t` goes: after every keyframe at the same time or earlier. */
  function InsertPos(xs: seq<Keyframe>, k: Keyframe): (p: nat)
    ensures p <= |xs|
  {
    if xs == [] || xs[|xs| - 1].t <= k.t then |xs| else InsertPos(xs[..|xs| - 1], k)
  }

  function Insert(xs: seq<Keyframe>, k: Keyframe): (r: seq<Keyframe>)
    ensures |r| == |xs| + 1
  {
    if xs == [] || xs[|xs| - 1].t <= k.t then xs + [k]
    else Insert(xs[..|xs| - 1], k) + [xs[|xs| - 1]]
  }

  /** In a time-sorted list, `Insert` places `k` at `InsertPos`: after the keyframes not later, before the later ones. */
  lemma {:induction false} InsertAtPos(xs: seq<Keyframe>, k: Keyframe)
    requires SortedByTime(xs)
    ensures var p := InsertPos(xs, k);
      && Insert(xs, k) == xs[..p] + [k] + xs[p..]
      && (forall i :: 0 <= i < p ==> xs[i].t <= k.t)
      && (forall i :: p <= i < |xs| ==> xs[i].t > k.t)
  {
    if xs == [] || xs[|xs| - 1].t <= k.t {
      assert xs[..|xs|] == xs;
    } else {
      var init := xs[..|xs| - 1];
      SortedInit(xs);
      var p := InsertPos(init, k);
      assert InsertPos(xs, k) == p;
      InsertAtPos(init, k);
      assert Insert(xs, k) == Insert(init, k) + [xs[|xs| - 1]];
      InitSlices(xs, p);
    }
  }

  /** Dropping the last keyframe keeps a list time-sorted. */
  lemma SortedInit(xs: seq<Keyframe>)
    requires SortedByTime(xs) && xs != []
    ensures SortedByTime(xs[..|xs| - 1])
  {
    var init := xs[..|xs| - 1];
    forall i, j | 0 <= i < j < |init|
      ensures init[i].t <= init[j].t
    {
      assert init[i] == xs[i] && init[j] == xs[j];
    }
  }

  /** Cutting `xs` without its last element at `p` cuts `xs` at `p`. */
  lemma InitSlices(xs: seq<Keyframe>, p: nat)
    requires p < |xs|
    ensures var init := xs[..|xs| - 1];
      && init[..p] == xs[..p]
      && init[p..] + [xs[|xs| - 1]] == xs[p..]
      && (forall i :: 0 <= i < |init| ==> xs[i] == init[i])
  {
  }

  /** Inserting adds exactly the one keyframe. */
  lemma {:induction false} InsertMultiset(xs: seq<Keyframe>, k: Keyframe)
    ensures multiset(Insert(xs, k)) == multiset(xs) + multiset{k}
  {
    if !(xs == [] || xs[|xs| - 1].t <= k.t) {
      var init := xs[..|xs| - 1];
      InsertMultiset(init, k);
      assert xs == init + [xs[|xs| - 1]];
    }
  }

  lemma InsertSorted(xs: seq<Keyframe>, k: Keyframe)
    requires SortedByTime(xs)
    ensures SortedByTime(Insert(xs, k))
  {
    InsertAtPos(xs, k);
    var p := InsertPos(xs, k);
    var r := Insert(xs, k);
    forall i, j | 0 <= i < j < |r|
      ensures r[i].t <= r[j].t
    {
      if i < p && j > p {
        assert r[i] == xs[i] && r[j] == xs[j - 1];
      } else if i == p {
        assert r[j] == xs[j - 1];
      } else if j == p {
        assert r[i] == xs[i];
      } else if i > p {
        assert r[i] == xs[i - 1] && r[j] == xs[j - 1];
      }
    }
  }

  /**
   * `[...kf].sort((a, b) => a.t - b.t)`: a stable sort by time (JavaScript's
   * `Array.prototype.sort` is stable), written as insertion from the left.
   */
  function SortByTime(s: seq<Keyframe>): (r: seq<Keyframe>)
    ensures |r| == |s|
  {
    if s == [] then [] else Insert(SortByTime(s[..|s| - 1]), s[|s| - 1])
  }

  /** The sorted copy is sorted by time and holds exactly the original keyframes. */
  lemma {:induction false} SortByTimeSorted(s: seq<Keyframe>)
    ensures SortedByTime(SortByTime(s))
    ensures multiset(SortByTime(s)) == multiset(s)
  {
    if s != [] {
      SortByTimeSorted(s[..|s| - 1]);
      InsertSorted(SortByTime(s[..|s| - 1]), s[|s| - 1]);
      InsertMultiset(SortByTime(s[..|s| - 1]), s[|s| - 1]);
      assert s == s[..|s| - 1] + [s[|s| - 1]];
    }
  }

  /** Sorting an already sorted list changes nothing (equal times keep their order). */
  lemma {:induction false} SortByTimeOfSorted(s: seq<Keyframe>)
    requires SortedByTime(s)
    ensures SortByTime(s) == s
  {
    if s != [] {
      var init := s[..|s| - 1];
      assert SortedByTime(init);
      SortByTimeOfSorted(init);
      if |init| > 0 {
        assert init[|init| - 1].t <= s[|s| - 1].t;
      }
      assert init + [s[|s| - 1]] == s;
    }
  }

  /**
   * The "add keyframe" buttons: appending a keyframe to a sorted list and
   * sorting puts it after every keyframe at the same time or earlier and
   * before every later one; the others keep their order.
   */
  lemma AddKeyframeOrder(kfs: seq<Keyframe>, k: Keyframe)
    requires SortedByTime(kfs)
    ensures var p := InsertPos(kfs, k);
      && SortByTime(kfs + [k]) == kfs[..p] + [k] + kfs[p..]
      && (forall i :: 0 <= i < p ==> kfs[i].t <= k.t)
      && (forall i :: p <= i < |kfs| ==> kfs[i].t > k.t)
      && SortedByTime(SortByTime(kfs + [k]))
  {
    var s := kfs + [k];
    assert s[..|s| - 1] == kfs;
    SortByTimeOfSorted(kfs);
    InsertAtPos(kfs, k);
    InsertSorted(kfs, k);
  }

  // ---------------------------------------------------------------------
  // Interpolation
  // ---------------------------------------------------------------------

  /** The channel `s[at..at + 2]` of a `#rrggbb` colour, as `parseInt(…, 16)` reads it. */
  function Channel(s: string, at: nat): (v: Byte)
    requires IsHexColor(s) && 1 <= at <= 5
  {
    var p := s[at..at + 2];
    assert forall i :: 0 <= i < 2 ==> p[i] == s[1..][at - 1 + i];
    ParseTwoHexDigits(p);
    HexValue(p)
  }

  /** `parseInt(s.slice(at, at + 2), 16)` of a `#rrggbb` colour is its channel. */
  lemma ChannelIsParseInt(s: string, at: nat)
    requires IsHexColor(s) && 1 <= at <= 5
    ensures ParseIntHex(Substring(s, at, at + 2)) == Some(Channel(s, at) as int)
  {
    var p := s[at..at + 2];
    assert Substring(s, at, at + 2) == p;
    assert forall i :: 0 <= i < 2 ==> p[i] == s[1..][at - 1 + i];
    ParseTwoHexDigits(p);
  }

  /** `Math.round(a + frac * (b - a))` of two channels. */
  function MixChannel(a: Byte, b: Byte, frac: real): (r: Byte)
    requires 0.0 <= frac <= 1.0
    ensures Min(a, b) <= r <= Max(a, b)
  {
    var x := a as real + frac * (b - a) as real;
    ScaleBetween(frac, (b - a) as real);
    RoundBetween(x, Min(a, b), Max(a, b));
    RoundHalfUp(x)
  }

  /** `Math.round` of a value between two integers lies between them. */
  lemma RoundBetween(x: real, lo: int, hi: int)
    requires lo as real <= x <= hi as real
    ensures lo <= RoundHalfUp(x) <= hi
  {}

  /** Two `#rrggbb` colours mixed channel by channel and printed in lower case. */
  function MixHex(x: string, y: string, frac: real): string
    requires IsHexColor(x) && IsHexColor(y) && 0.0 <= frac <= 1.0
  {
    RgbToHex(MixChannel(Channel(x, 1), Channel(y, 1), frac),
             MixChannel(Channel(x, 3), Channel(y, 3), frac),
             MixChannel(Channel(x, 5), Channel(y, 5), frac))
  }

  /** Two values at fraction `frac` of the way from `x` to `y`. */
  function Mix(x: Value, y: Value, frac: real): (r: Value)
    requires 0.0 <= frac <= 1.0
    ensures SameKind(r, x)
    ensures !(x.Num? && y.Num?) && !(x.Str? && y.Str? && IsHexColor(x.str) && IsHexColor(y.str)) ==> r == x || r == y
  {
    if x.Num? && y.Num? then Num(x.num + frac * (y.num - x.num))
    else if x.Bool? && y.Bool? then (if frac < 0.5 then x else y)
    else if x.Str? && y.Str? then
      if IsHexColor(x.str) && IsHexColor(y.str) then Str(MixHex(x.str, y.str, frac))
      else if frac < 0.5 then x else y
    else x
  }

  /** Both values are numbers, both booleans or both strings. */
  predicate SameKind(v: Value, w: Value) {
    (v.Num? <==> w.Num?) && (v.Bool? <==> w.Bool?) && (v.Str? <==> w.Str?)
  }

  /** How far `t` lies from `a` towards `b`. */
  function Frac(a: Keyframe, b: Keyframe, t: real): (frac: real)
    requires a.t <= t < b.t
    ensures 0.0 <= frac < 1.0
  {
    UnitFraction(t - a.t, b.t - a.t);
    (t - a.t) / (b.t - a.t)
  }

  /** The value between two adjacent keyframes `a.t <= t < b.t`. */
  function Interpolate(mode: Interpolation, a: Keyframe, b: Keyframe, t: real): (r: Value)
    requires a.t <= t < b.t
    ensures SameKind(r, a.value)
    ensures a.value.Bool? ==> r == a.value || r == b.value
  {
    if mode == Step then a.value else Mix(a.value, b.value, Frac(a, b, t))
  }

  /** Numbers move linearly: the result lies between the two ends and starts at the first. */
  lemma MixNumbersBetween(x: real, y: real, frac: real)
    requires 0.0 <= frac <= 1.0
    ensures var r := Mix(Num(x), Num(y), frac).num;
      MinR(x, y) <= r <= MaxR(x, y) && (frac == 0.0 ==> r == x)
  {
    ScaleBetween(frac, y - x);
  }

  /** Booleans switch from the first to the second at the half-way point. */
  lemma MixBooleansSwitch(x: bool, y: bool, frac: real)
    requires 0.0 <= frac <= 1.0
    ensures Mix(Bool(x), Bool(y), frac) == Bool(if frac < 0.5 then x else y)
  {}

  /** Channel `at` of `m` lies between the same channel of `x` and of `y`. */
  predicate ChannelBetween(x: string, y: string, m: string, at: nat)
    requires IsHexColor(x) && IsHexColor(y) && IsHexColor(m) && 1 <= at <= 5
  {
    Min(Channel(x, at), Channel(y, at)) <= Channel(m, at) <= Max(Channel(x, at), Channel(y, at))
  }

  /**
   * Two colours mix into `#` and six lower-case hex digits, each channel
   * between the two ends' channels; at fraction 0 the channels are the
   * first colour's.
   */
  lemma MixHexChannels(x: string, y: string, frac: real)
    requires IsHexColor(x) && IsHexColor(y) && 0.0 <= frac <= 1.0
    ensures Mix(Str(x), Str(y), frac) == Str(MixHex(x, y, frac))
    ensures var m := MixHex(x, y, frac);
      && IsHexColor(m)
      && (forall i :: 1 <= i < 7 ==> !('A' <= m[i] <= 'F'))
      && ChannelBetween(x, y, m, 1) && ChannelBetween(x, y, m, 3) && ChannelBetween(x, y, m, 5)
      && (frac == 0.0 ==> Channel(m, 1) == Channel(x, 1) && Channel(m, 3) == Channel(x, 3) && Channel(m, 5) == Channel(x, 5))
  {
    var r := MixChannel(Channel(x, 1), Channel(y, 1), frac);
    var g := MixChannel(Channel(x, 3), Channel(y, 3), frac);
    var b := MixChannel(Channel(x, 5), Channel(y, 5), frac);
    var m := MixHex(x, y, frac);
    assert m == RgbToHex(r, g, b);
    RgbToHexChannels(r, g, b);
    assert Channel(m, 1) == r && Channel(m, 3) == g && Channel(m, 5) == b;
    if frac == 0.0 {
      MixChannelAtZero(Channel(x, 1), Channel(y, 1));
      MixChannelAtZero(Channel(x, 3), Channel(y, 3));
      MixChannelAtZero(Channel(x, 5), Channel(y, 5));
    }
  }

  /** At fraction 0 a channel keeps its first value. */
  lemma MixChannelAtZero(a: Byte, b: Byte)
    ensures MixChannel(a, b, 0.0) == a
  {}

  /** `#rrggbb` printing is read back channel by channel, and prints lower-case digits. */
  lemma RgbToHexChannels(r: Byte, g: Byte, b: Byte)
    ensures var s := RgbToHex(r, g, b);
      && Channel(s, 1) == r && Channel(s, 3) == g && Channel(s, 5) == b
      && (forall i :: 1 <= i < 7 ==> !('A' <= s[i] <= 'F'))
  {
    var s := RgbToHex(r, g, b);
    var hr, hg, hb := ByteToHex2(r), ByteToHex2(g), ByteToHex2(b);
    assert s == "#" + hr + hg + hb;
    assert s[1..3] == hr && s[3..5] == hg && s[5..7] == hb;
    forall i | 1 <= i < 7
      ensures !('A' <= s[i] <= 'F')
    {
      if i < 3 { assert s[i] == hr[i - 1]; }
      else if i < 5 { assert s[i] == hg[i - 3]; }
      else { assert s[i] == hb[i - 5]; }
    }
  }

  /** Any other pair of strings switches at the half-way point; mismatched kinds keep the first value. */
  lemma MixOtherValues(x: Value, y: Value, frac: real)
    requires 0.0 <= frac <= 1.0
    ensures x.Str? && y.Str? && !(IsHexColor(x.str) && IsHexColor(y.str)) ==>
      Mix(x, y, frac) == (if frac < 0.5 then x else y)
    ensures !(x.Num? && y.Num?) && !(x.Bool? && y.Bool?) && !(x.Str? && y.Str?) ==> Mix(x, y, frac) == x
  {}

  /** In a time-sorted list strictly spanning `t`, exactly one adjacent pair brackets `t`. */
  lemma {:induction false} BracketExists(s: seq<Keyframe>, t: real)
    requires SortedByTime(s) && |s| >= 2 && s[0].t <= t < s[|s| - 1].t
    ensures exists i :: 0 <= i < |s| - 1 && s[i].t <= t < s[i + 1].t
  {
    if t < s[1].t {
      assert s[0].t <= t < s[1].t;
    } else {
      BracketExists(s[1..], t);
      var i :| 0 <= i < |s| - 2 && s[1..][i].t <= t < s[1..][i + 1].t;
      assert s[i + 1].t <= t < s[i + 2].t;
    }
  }

  /** `sampleTrack(track, t, fallback)`. */
  method SampleTrack(track: Track, t: real, fallback: Value) returns (v: Value)
    ensures track.keyframes == [] ==> v == fallback
    ensures track.keyframes != [] ==>
      var s := SortByTime(track.keyframes);
      && (t <= s[0].t ==> v == s[0].value)
      && (s[0].t < t && s[|s| - 1].t <= t ==> v == s[|s| - 1].value)
      && (forall i :: 0 <= i < |s| - 1 && s[0].t < t && s[i].t <= t < s[i + 1].t ==>
            v == Interpolate(track.interpolation, s[i], s[i + 1], t))
  {
    var kf := track.keyframes;
    if |kf| == 0 {
      return fallback;
    }
    var sorted := SortByTime(kf);
    SortByTimeSorted(kf);
    if t <= sorted[0].t {
      return sorted[0].value;
    }
    if t >= sorted[|sorted| - 1].t {
      return sorted[|sorted| - 1].value;
    }
    var i := FindSegment(sorted, t);
    var a := sorted[i];
    var b := sorted[i + 1];
    if track.interpolation == Step {
      v := a.value;
    } else {
      var frac := Frac(a, b, t);
      v := Mix(a.value, b.value, frac);
    }
    forall j | 0 <= j < |sorted| - 1 && sorted[j].t <= t < sorted[j + 1].t
      ensures j == i
    {
      BracketUnique(sorted, t, i, j);
    }
  }

  /** The scan of `sampleTrack`: step on while the next keyframe is not later than `t`. */
  method FindSegment(s: seq<Keyframe>, t: real) returns (i: nat)
    requires SortedByTime(s) && |s| >= 2 && s[0].t < t < s[|s| - 1].t
    ensures i < |s| - 1 && s[i].t <= t < s[i + 1].t
  {
    i := 0;
    while i + 1 < |s| && s[i + 1].t <= t
      invariant 0 <= i < |s| - 1
      invariant s[i].t <= t
      decreases |s| - i
    {
      i := i + 1;
    }
  }

  /** In a time-sorted list at most one adjacent pair brackets a time. */
  lemma BracketUnique(s: seq<Keyframe>, t: real, i: nat, j: nat)
    requires SortedByTime(s)
    requires i < |s| - 1 && s[i].t <= t < s[i + 1].t
    requires j < |s| - 1 && s[j].t <= t < s[j + 1].t
    ensures i == j
  {
  }

  // ---------------------------------------------------------------------
  // Values, times
  // ---------------------------------------------------------------------

  function Abs(x: real): real { if x < 0.0 then -x else x }

  /** `valueEquals`: numbers within 1e-9 of each other; anything else by strict equality. */
  function ValueEquals(a: Value, b: Value): (r: bool)
    ensures a == b ==> r
    ensures !(a.Num? && b.Num?) ==> (r <==> a == b)
  {
    if a.Num? && b.Num? then Abs(a.num - b.num) < EPSILON else a == b
  }

  /** The comparison is reflexive and symmetric, and strict equality off the numbers. */
  lemma ValueEqualsProperties(a: Value, b: Value)
    ensures ValueEquals(a, a)
    ensures ValueEquals(a, b) == ValueEquals(b, a)
    ensures !(a.Num? && b.Num?) ==> (ValueEquals(a, b) <==> a == b)
    ensures a == b ==> ValueEquals(a, b)
  {}

  /** The tolerance makes it intransitive: two steps of 0.6e-9 are each equal, their ends are not. */
  lemma ValueEqualsNotTransitive()
    ensures var a, b, c := Num(0.0), Num(6.0 / 10000000000.0), Num(12.0 / 10000000000.0);
      ValueEquals(a, b) && ValueEquals(b, c) && !ValueEquals(a, c)
  {}

  /** `clampTime(t)`: `Math.max(0, Math.min(duration, t))`. */
  function ClampTime(duration: real, t: real): (r: real)
    ensures duration >= 0.0 ==> 0.0 <= r <= duration
    ensures 0.0 <= t <= duration ==> r == t
  {
    MaxR(0.0, MinR(duration, t))
  }

  /** With a non-negative duration the clamp lands in [0, duration], fixes times already there, and is idempotent. */
  lemma ClampTimeProperties(duration: real, t: real)
    requires duration >= 0.0
    ensures 0.0 <= ClampTime(duration, t) <= duration
    ensures 0.0 <= t <= duration ==> ClampTime(duration, t) == t
    ensures ClampTime(duration, ClampTime(duration, t)) == ClampTime(duration, t)
    ensures t < 0.0 ==> ClampTime(duration, t) == 0.0
    ensures t > duration ==> ClampTime(duration, t) == duration
  {}

  /**
   * `snapTime(t)`: to the nearest multiple of the grid (halves upwards), or
   * unchanged without a grid; a snapped time is less than half a step below
   * or at most half a step above the time given.
   */
  function SnapTime(grid: Option<real>, t: real): (r: real)
    requires grid.Some? ==> grid.value != 0.0
    ensures grid.None? ==> r == t
    ensures grid.Some? && grid.value > 0.0 ==> t - grid.value / 2.0 < r <= t + grid.value / 2.0
  {
    if grid.None? then t
    else
      SnapWithin(grid.value, t);
      (RoundHalfUp(t / grid.value) as real) * grid.value
  }

  /** The nearest whole number of steps `g` lies within half a step of `t`. */
  lemma SnapWithin(g: real, t: real)
    requires g != 0.0
    ensures g > 0.0 ==> t - g / 2.0 < (RoundHalfUp(t / g) as real) * g <= t + g / 2.0
  {
    if g > 0.0 {
      var x := t / g;
      var k := RoundHalfUp(x);
      assert x * g == t;
      ScaleLt(x - 0.5, k as real, g);
      ScaleLe(k as real, x + 0.5, g);
      assert (x + 0.5) * g == t + g / 2.0;
      assert (x - 0.5) * g == t - g / 2.0;
    }
  }

  /** Times already on the grid stay where they are. */
  lemma SnapOnGrid(g: real, k: int)
    requires g > 0.0
    ensures SnapTime(Some(g), (k as real) * g) == (k as real) * g
  {
    assert ((k as real) * g) / g == k as real;
  }

  /** The time `setTime(t)` moves to: snapped, then clamped. */
  function SetTimeTarget(duration: real, grid: Option<real>, t: real): real
    requires grid.Some? ==> grid.value != 0.0
  {
    ClampTime(duration, SnapTime(grid, t))
  }

  /** The "next frame" button's argument to `setTime`: one frame on, or back to 0 at the end. */
  function NextFrameTime(duration: real, current: real, frameStep: real): real {
    var next := MinR(duration, current + frameStep);
    if next >= duration then 0.0 else next
  }

  /** The "previous frame" button's argument to `setTime`. */
  function PrevFrameTime(current: real, frameStep: real): real {
    MaxR(0.0, current - frameStep)
  }

  /** Without snapping, "next" advances by one frame until the end, where it wraps to 0; "previous" stops at 0. */
  lemma FrameStepping(duration: real, current: real, frameStep: real)
    requires 0.0 <= current <= duration && frameStep > 0.0
    ensures current + frameStep < duration ==>
      SetTimeTarget(duration, None, NextFrameTime(duration, current, frameStep)) == current + frameStep
    ensures current + frameStep >= duration ==> SetTimeTarget(duration, None, NextFrameTime(duration, current, frameStep)) == 0.0
    ensures SetTimeTarget(duration, None, PrevFrameTime(current, frameStep)) == MaxR(0.0, current - frameStep)
  {}

  /**
   * With a snap grid wider than two frames, "next frame" snaps back to the
   * current grid point: from 0 with the 1 s grid and the default 1/30 s frame
   * the time stays at 0.
   */
  lemma NextFrameUnderCoarseSnap()
    ensures SetTimeTarget(DEFAULT_DURATION, Some(1.0), NextFrameTime(DEFAULT_DURATION, 0.0, DEFAULT_FRAME_STEP)) == 0.0
  {
    assert NextFrameTime(DEFAULT_DURATION, 0.0, DEFAULT_FRAME_STEP) == 1.0 / 30.0;
    assert RoundHalfUp(1.0 / 30.0) == 0;
  }

  /** The play clock's next time: `delta` seconds on, wrapped modulo the duration once it reaches the end. */
  function TickTime(duration: real, current: real, delta: real): (r: real)
    requires duration != 0.0
    ensures duration > 0.0 ==> 0.0 <= r <= duration
  {
    var next := current + delta;
    var wrapped := if next >= duration then JsRem(next, duration) else next;
    ClampTime(duration, wrapped)
  }

  /** How many whole durations the wrap removes. */
  function WrapCount(duration: real, next: real): int
    requires duration != 0.0
  {
    if next >= duration then Trunc(next / duration) else 0
  }

  /** Moving forward, the clock stays in [0, duration) and the wrap subtracts whole durations. */
  lemma TickWraps(duration: real, current: real, delta: real)
    requires duration > 0.0 && 0.0 <= current && delta >= 0.0
    ensures 0.0 <= TickTime(duration, current, delta) < duration
    ensures current + delta < duration ==> TickTime(duration, current, delta) == current + delta
    ensures TickTime(duration, current, delta) == current + delta - (WrapCount(duration, current + delta) as real) * duration
  {
    var next := current + delta;
    if next >= duration {
      RemainderBounds(next, duration);
      assert next / duration >= 0.0;
    }
  }

  // ---------------------------------------------------------------------
  // Track lists
  // ---------------------------------------------------------------------

  /** `tracks.some((tr) => tr.paramKey === key)`. */
  function HasParamKey(tracks: seq<Track>, key: string): (b: bool)
    ensures b <==> exists i :: 0 <= i < |tracks| && tracks[i].paramKey == key
  {
    if tracks == [] then false
    else if tracks[0].paramKey == key then true
    else
      assert forall i :: 1 <= i < |tracks| ==> tracks[i] == tracks[1..][i - 1];
      HasParamKey(tracks[1..], key)
  }

  /** At most one track per parameter. */
  predicate UniqueParamKeys(tracks: seq<Track>) {
    forall i, j :: 0 <= i < j < |tracks| ==> tracks[i].paramKey != tracks[j].paramKey
  }

  /** `tracks.filter((tr) => tr.id !== id)`. */
  function RemoveId(tracks: seq<Track>, id: string): (r: seq<Track>)
    ensures forall tr :: tr in r <==> tr in tracks && tr.id != id
    ensures |r| <= |tracks|
  {
    if tracks == [] then []
    else if tracks[0].id == id then RemoveId(tracks[1..], id)
    else [tracks[0]] + RemoveId(tracks[1..], id)
  }

  /** The filter keeps the other tracks in their order; removing an unknown id changes nothing. */
  lemma {:induction false} RemoveIdKeepsOrder(xs: seq<Track>, ys: seq<Track>, id: string)
    ensures RemoveId(xs + ys, id) == RemoveId(xs, id) + RemoveId(ys, id)
  {
    if xs == [] {
      assert xs + ys == ys;
    } else {
      assert (xs + ys)[0] == xs[0];
      assert (xs + ys)[1..] == xs[1..] + ys;
      RemoveIdKeepsOrder(xs[1..], ys, id);
    }
  }

  lemma {:induction false} RemoveUnknownId(xs: seq<Track>, id: string)
    requires forall i :: 0 <= i < |xs| ==> xs[i].id != id
    ensures RemoveId(xs, id) == xs
  {
    if xs != [] {
      assert forall i :: 0 <= i < |xs[1..]| ==> xs[1..][i].id != id;
      RemoveUnknownId(xs[1..], id);
      assert [xs[0]] + xs[1..] == xs;
    }
  }

  /** `tracks.findIndex((t) => t.id === id)`, as an option. */
  function FindId(tracks: seq<Track>, id: string): (r: Option<nat>)
    ensures r.Some? ==> r.value < |tracks| && tracks[r.value].id == id
                        && forall i :: 0 <= i < r.value ==> tracks[i].id != id
    ensures r.None? ==> forall i :: 0 <= i < |tracks| ==> tracks[i].id != id
  {
    if tracks == [] then None
    else if tracks[0].id == id then Some(0)
    else
      var rest := FindId(tracks[1..], id);
      if rest.Some? then Some(rest.value + 1) else None
  }

  /** `getTrack(id)`: the first track with that id. */
  function GetTrack(tracks: seq<Track>, id: string): (r: Option<Track>)
    ensures r.Some? <==> exists i :: 0 <= i < |tracks| && tracks[i].id == id
    ensures r.Some? ==> exists i :: 0 <= i < |tracks| && tracks[i] == r.value && r.value.id == id
                                    && forall j :: 0 <= j < i ==> tracks[j].id != id
  {
    var i := FindId(tracks, id);
    if i.Some? then Some(tracks[i.value]) else None
  }

  /** The list after `updateTrack(id, upd)`: the first track with that id gets the supplied fields. */
  function Updated(tracks: seq<Track>, id: string, keyframes: Option<seq<Keyframe>>,
                   interpolation: Option<Interpolation>): seq<Track>
  {
    var i := FindId(tracks, id);
    if i.None? then tracks
    else
      var tr := tracks[i.value];
      tracks[i.value := tr.(keyframes := Pick(keyframes, tr.keyframes),
                            interpolation := Pick(interpolation, tr.interpolation))]
  }

  /**
   * An unknown id changes nothing; otherwise only the first track with that
   * id changes, and only in the fields supplied.
   */
  lemma UpdateTrackChangesOnlyTarget(tracks: seq<Track>, id: string, keyframes: Option<seq<Keyframe>>,
                                     interpolation: Option<Interpolation>)
    ensures var r := Updated(tracks, id, keyframes, interpolation);
      && |r| == |tracks|
      && ((forall i :: 0 <= i < |tracks| ==> tracks[i].id != id) ==> r == tracks)
      && (forall i :: 0 <= i < |tracks| && r[i] != tracks[i] ==>
            && tracks[i].id == id
            && (forall j :: 0 <= j < i ==> tracks[j].id != id)
            && r[i].(keyframes := tracks[i].keyframes, interpolation := tracks[i].interpolation) == tracks[i]
            && (keyframes.None? ==> r[i].keyframes == tracks[i].keyframes)
            && (interpolation.None? ==> r[i].interpolation == tracks[i].interpolation))
      && (forall i :: 0 <= i < |tracks| && tracks[i].id == id && (forall j :: 0 <= j < i ==> tracks[j].id != id) ==>
            && (keyframes.Some? ==> r[i].keyframes == keyframes.value)
            && (interpolation.Some? ==> r[i].interpolation == interpolation.value))
  {}

  /** `tr.id || generateId()` for every loaded track, with `newIds[i]` the id generated for track `i`. */
  function WithIds(tracks: seq<Track>, newIds: seq<string>): (r: seq<Track>)
    requires |newIds| == |tracks|
    ensures |r| == |tracks|
    ensures forall i :: 0 <= i < |tracks| ==>
      r[i] == tracks[i].(id := if tracks[i].id == "" then newIds[i] else tracks[i].id)
  {
    if tracks == [] then []
    else [tracks[0].(id := if tracks[0].id == "" then newIds[0] else tracks[0].id)] + WithIds(tracks[1..], newIds[1..])
  }

  /** Loaded tracks all carry a non-empty id when the generated ones are non-empty, and keep everything else. */
  lemma LoadedIdsNonEmpty(tracks: seq<Track>, newIds: seq<string>)
    requires |newIds| == |tracks| && forall i :: 0 <= i < |newIds| ==> newIds[i] != ""
    ensures forall i :: 0 <= i < |tracks| ==> WithIds(tracks, newIds)[i].id != ""
    ensures forall i :: 0 <= i < |tracks| ==> WithIds(tracks, newIds)[i].(id := tracks[i].id) == tracks[i]
  {}

  /** The state `loadState(newState)` installs. */
  function Loaded(frameStep: real, newState: TimelineState, newIds: seq<string>): TimelineState
    requires |newIds| == |newState.tracks|
  {
    var duration := MaxR(MIN_DURATION, newState.duration);
    TimelineState(MaxR(0.0, MinR(newState.currentTime, duration)), false, duration,
                  if newState.frameStep > 0.0 then newState.frameStep else frameStep,
                  WithIds(newState.tracks, newIds))
  }

  /** A loaded state is paused, at least 0.1 s long, at a time within it, and with a positive frame step if it had one. */
  lemma LoadStateBounds(frameStep: real, newState: TimelineState, newIds: seq<string>)
    requires |newIds| == |newState.tracks|
    ensures var s := Loaded(frameStep, newState, newIds);
      && !s.playing && s.duration >= MIN_DURATION && 0.0 <= s.currentTime <= s.duration
      && (frameStep > 0.0 ==> s.frameStep > 0.0)
      && (newState.frameStep > 0.0 ==> s.frameStep == newState.frameStep)
      && (newState.frameStep <= 0.0 ==> s.frameStep == frameStep)
      && (0.0 <= newState.currentTime <= newState.duration && newState.duration >= MIN_DURATION ==>
            s.currentTime == newState.currentTime && s.duration == newState.duration)
  {}

  // ---------------------------------------------------------------------
  // The timeline object
  // ---------------------------------------------------------------------

  /** `createTimeline(config)`: its state record, the play clock and the snap grid. */
  class TimelineModel {
    var currentTime: real
    var playing: bool
    var duration: real
    var frameStep: real
    var tracks: seq<Track>
    var lastTick: real
    var snapGrid: Option<real>

    function State(): TimelineState
      reads this
    {
      TimelineState(currentTime, playing, duration, frameStep, tracks)
    }

    /** The grid is one of the positive steps the snap menu offers, or none. */
    predicate Valid()
      reads this
    {
      snapGrid.Some? ==> snapGrid.value > 0.0
    }

    constructor(duration: Option<real>, frameStep: Option<real>)
      ensures Valid()
      ensures State() == TimelineState(0.0, false, Pick(duration, DEFAULT_DURATION),
                                       Pick(frameStep, DEFAULT_FRAME_STEP), [])
      ensures lastTick == 0.0 && snapGrid.None?
    {
      currentTime := 0.0;
      playing := false;
      this.duration := Pick(duration, DEFAULT_DURATION);
      this.frameStep := Pick(frameStep, DEFAULT_FRAME_STEP);
      tracks := [];
      lastTick := 0.0;
      snapGrid := None;
    }

    /** `setTime(t)`: snap, clamp, and clamp again in `setTimeOrig`. */
    method SetTime(t: real)
      requires Valid()
      modifies this
      ensures Valid()
      ensures State() == old(State()).(currentTime := SetTimeTarget(duration, snapGrid, t))
      ensures lastTick == old(lastTick) && snapGrid == old(snapGrid)
    {
      currentTime := ClampTime(duration, SnapTime(snapGrid, t));
      currentTime := ClampTime(duration, currentTime);
      assert currentTime == ClampTime(duration, SnapTime(snapGrid, t)) by {
        if duration >= 0.0 {
          ClampTimeProperties(duration, SnapTime(snapGrid, t));
        }
      }
    }

    /** The snap menu: store the grid, then re-apply the current time. */
    method SetSnapGrid(grid: Option<real>)
      requires grid.Some? ==> grid.value > 0.0
      modifies this
      ensures Valid() && snapGrid == grid
      ensures State() == old(State()).(currentTime := SetTimeTarget(duration, grid, old(currentTime)))
      ensures lastTick == old(lastTick)
    {
      snapGrid := grid;
      SetTime(currentTime);
    }

    method NextFrame()
      requires Valid()
      modifies this
      ensures Valid()
      ensures State() == old(State()).(currentTime :=
                SetTimeTarget(duration, snapGrid, NextFrameTime(duration, old(currentTime), frameStep)))
      ensures lastTick == old(lastTick) && snapGrid == old(snapGrid)
    {
      var next := MinR(duration, currentTime + frameStep);
      SetTime(if next >= duration then 0.0 else next);
    }

    method PrevFrame()
      requires Valid()
      modifies this
      ensures Valid()
      ensures State() == old(State()).(currentTime :=
                SetTimeTarget(duration, snapGrid, PrevFrameTime(old(currentTime), frameStep)))
      ensures lastTick == old(lastTick) && snapGrid == old(snapGrid)
    {
      var prev := MaxR(0.0, currentTime - frameStep);
      SetTime(prev);
    }

    /** `play()` at clock time `now`: a second call while playing changes nothing. */
    method Play(now: real)
      modifies this
      ensures old(playing) ==> State() == old(State()) && lastTick == old(lastTick)
      ensures !old(playing) ==> State() == old(State()).(playing := true) && lastTick == now
      ensures snapGrid == old(snapGrid)
    {
      if playing {
        return;
      }
      playing := true;
      lastTick := now;
    }

    method Pause()
      modifies this
      ensures State() == old(State()).(playing := false)
      ensures lastTick == old(lastTick) && snapGrid == old(snapGrid)
    {
      playing := false;
    }

    /** `tick(now)`: advance by the milliseconds since the last tick, wrapping at the end. */
    method Tick(now: real)
      requires duration != 0.0
      modifies this
      ensures !old(playing) ==> State() == old(State()) && lastTick == old(lastTick)
      ensures old(playing) ==>
        && State() == old(State()).(currentTime := TickTime(old(duration), old(currentTime), (now - old(lastTick)) / 1000.0))
        && lastTick == now
      ensures snapGrid == old(snapGrid)
    {
      if !playing {
        return;
      }
      var delta := (now - lastTick) / 1000.0;
      lastTick := now;
      var next := currentTime + delta;
      if next >= duration {
        next := JsRem(next, duration);
      }
      currentTime := ClampTime(duration, next);
    }

    /** `addTrack({paramKey, label})` with `id` the generated id: refused when the parameter already has a track. */
    method AddTrack(paramKey: string, displayLabel: string, id: string) returns (r: Option<Track>)
      modifies this
      ensures HasParamKey(old(tracks), paramKey) ==> r.None? && tracks == old(tracks)
      ensures !HasParamKey(old(tracks), paramKey) ==>
        r == Some(Track(id, paramKey, displayLabel, [], Linear)) && tracks == old(tracks) + [r.value]
      ensures State() == old(State()).(tracks := tracks)
      ensures lastTick == old(lastTick) && snapGrid == old(snapGrid)
    {
      if HasParamKey(tracks, paramKey) {
        return None;
      }
      var track := Track(id, paramKey, displayLabel, [], Linear);
      tracks := tracks + [track];
      r := Some(track);
    }

    /** `removeTrack(id)`. */
    method RemoveTrack(id: string)
      modifies this
      ensures State() == old(State()).(tracks := RemoveId(old(tracks), id))
      ensures lastTick == old(lastTick) && snapGrid == old(snapGrid)
    {
      tracks := RemoveId(tracks, id);
    }

    /** `updateTrack(id, upd)`, a field of `upd` being `Some` when it is supplied. */
    method UpdateTrack(id: string, keyframes: Option<seq<Keyframe>>, interpolation: Option<Interpolation>)
      modifies this
      ensures State() == old(State()).(tracks := Updated(old(tracks), id, keyframes, interpolation))
      ensures lastTick == old(lastTick) && snapGrid == old(snapGrid)
    {
      var i := FindId(tracks, id);
      if i.Some? {
        var tr := tracks[i.value];
        if keyframes.Some? {
          tr := tr.(keyframes := keyframes.value);
        }
        if interpolation.Some? {
          tr := tr.(interpolation := interpolation.value);
        }
        tracks := tracks[i.value := tr];
      }
    }

    /** "Add keyframe at the current time" on a track, `value` being the parameter's current value. */
    method AddKeyframe(trackId: string, value: Value)
      modifies this
      ensures var tr := GetTrack(old(tracks), trackId);
        State() == old(State()).(tracks :=
          if tr.None? then old(tracks)
          else Updated(old(tracks), trackId,
                       Some(SortByTime(tr.value.keyframes + [Keyframe(old(currentTime), value)])), None))
      ensures lastTick == old(lastTick) && snapGrid == old(snapGrid)
    {
      var tr := GetTrack(tracks, trackId);
      if tr.Some? {
        var next := SortByTime(tr.value.keyframes + [Keyframe(currentTime, value)]);
        UpdateTrack(trackId, Some(next), None);
      }
    }

    /** `loadState(newState)`, `newIds[i]` being the id generated for a loaded track without one. */
    method LoadState(newState: TimelineState, newIds: seq<string>)
      requires |newIds| == |newState.tracks|
      modifies this
      ensures State() == Loaded(old(frameStep), newState, newIds)
      ensures lastTick == old(lastTick) && snapGrid == old(snapGrid)
    {
      Pause();
      duration := MaxR(MIN_DURATION, newState.duration);
      frameStep := if newState.frameStep > 0.0 then newState.frameStep else frameStep;
      tracks := WithIds(newState.tracks, newIds);
      currentTime := MaxR(0.0, MinR(newState.currentTime, duration));
      playing := false;
      currentTime := ClampTime(duration, currentTime);
    }
  }

  /** Adding a track keeps the list at one track per parameter. */
  lemma AddTrackKeepsKeysUnique(tracks: seq<Track>, paramKey: string, displayLabel: string, id: string)
    requires UniqueParamKeys(tracks) && !HasParamKey(tracks, paramKey)
    ensures UniqueParamKeys(tracks + [Track(id, paramKey, displayLabel, [], Linear)])
  {}

  /** Removing tracks keeps the list at one track per parameter. */
  lemma {:induction false} RemoveTrackKeepsKeysUnique(tracks: seq<Track>, id: string)
    requires UniqueParamKeys(tracks)
    ensures UniqueParamKeys(RemoveId(tracks, id))
  {
    if tracks != [] {
      var rest := tracks[1..];
      assert UniqueParamKeys(rest);
      RemoveTrackKeepsKeysUnique(rest, id);
      if tracks[0].id != id {
        var r := RemoveId(rest, id);
        forall j | 0 <= j < |r|
          ensures tracks[0].paramKey != r[j].paramKey
        {
          assert r[j] in rest;
        }
        assert forall j :: 1 <= j < |[tracks[0]] + r| ==> ([tracks[0]] + r)[j] == r[j - 1];
      }
    }
  }
}
