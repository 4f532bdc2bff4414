// The debug node card: the RGBA channel mask with its three-way alpha mode,
// the [min, max] range remap of a pixel buffer, and the card's own channel
// and range state as its buttons and inputs change it.

module DebugCard {
  import opened Basics

  /** How the alpha channel is shown. */
  datatype AlphaMode = Normal | Off | ViewOnly

  /** The order the alpha button steps through. */
  const ALPHA_MODE_ORDER: seq<AlphaMode> := [Normal, Off, ViewOnly]

  datatype ChannelState = ChannelState(r: bool, g: bool, b: bool, a: AlphaMode)

  /** A new card shows every colour channel and alpha as it is. */
  const DEFAULT_CHANNEL_STATE: ChannelState := ChannelState(true, true, true, Normal)

  /** `ALPHA_MODE_ORDER.indexOf(m)`: every mode is in the list. */
  function IndexOfMode(m: AlphaMode): (i: nat)
    ensures i < |ALPHA_MODE_ORDER| && ALPHA_MODE_ORDER[i] == m
  {
    match m
    case Normal => 0
    case Off => 1
    case ViewOnly => 2
  }

  /** The mode after `m`, wrapping round at the end of the list. */
  function NextAlphaMode(m: AlphaMode): AlphaMode {
    ALPHA_MODE_ORDER[(IndexOfMode(m) + 1) % |ALPHA_MODE_ORDER|]
  }

  /** The alpha button steps normal, off, view-only and back, so three clicks restore the mode. */
  lemma AlphaCycle(m: AlphaMode)
    ensures NextAlphaMode(Normal) == Off && NextAlphaMode(Off) == ViewOnly && NextAlphaMode(ViewOnly) == Normal
    ensures NextAlphaMode(m) != m && NextAlphaMode(NextAlphaMode(NextAlphaMode(m))) == m
  {}

  /** Whether colour channel `c` (0 red, 1 green, 2 blue) is shown. */
  function ColourShown(st: ChannelState, c: nat): bool
    requires c < 3
  {
    if c == 0 then st.r else if c == 1 then st.g else st.b
  }

  /**
   * Byte `i` of an RGBA buffer after the mask: in view-only mode the colour
   * bytes take the pixel's original alpha and alpha becomes 255; otherwise a
   * hidden colour byte becomes 0 and, in off mode, alpha becomes 255.
   */
  function MaskedByte(s: seq<Byte>, i: nat, st: ChannelState): Byte
    requires |s| % 4 == 0 && i < |s|
  {
    var c := i % 4;
    if st.a == ViewOnly then (if c < 3 then s[i - c + 3] else 255)
    else if c == 3 then (if st.a == Off then 255 else s[i])
    else if ColourShown(st, c) then s[i] else 0
  }

  function Masked(s: seq<Byte>, st: ChannelState): seq<Byte>
    requires |s| % 4 == 0
  {
    seq(|s|, i requires 0 <= i < |s| => MaskedByte(s, i, st))
  }

  /** `applyChannelMask` on the card's pixel buffer. */
  method ApplyChannelMask(data: array<Byte>, st: ChannelState)
    requires data.Length % 4 == 0
    modifies data
    ensures data[..] == Masked(old(data[..]), st)
  {
    ghost var s := data[..];
    var i := 0;
    while i < data.Length
      invariant 0 <= i <= data.Length && i % 4 == 0
      invariant forall j :: 0 <= j < i ==> data[j] == MaskedByte(s, j, st)
      invariant forall j :: i <= j < data.Length ==> data[j] == s[j]
    {
      if !st.r { data[i] := 0; }
      if !st.g { data[i + 1] := 0; }
      if !st.b { data[i + 2] := 0; }
      match st.a {
        case Off =>
          data[i + 3] := 255;
        case ViewOnly =>
          var alpha := data[i + 3];
          data[i] := alpha;
          data[i + 1] := alpha;
          data[i + 2] := alpha;
          data[i + 3] := 255;
        case Normal =>
      }
      i := i + 4;
    }
  }

  /** The default state leaves every pixel as it was. */
  lemma DefaultMaskUnchanged(s: seq<Byte>)
    requires |s| % 4 == 0
    ensures Masked(s, DEFAULT_CHANNEL_STATE) == s
  {}

  /**
   * Outside view-only mode a hidden colour channel reads 0, a shown one
   * keeps its byte, and alpha is 255 in off mode and unchanged in normal mode.
   */
  lemma MaskChannels(s: seq<Byte>, st: ChannelState, p: nat)
    requires |s| % 4 == 0 && p < |s| / 4 && st.a != ViewOnly
    ensures var m := Masked(s, st);
      && m[4 * p] == (if st.r then s[4 * p] else 0)
      && m[4 * p + 1] == (if st.g then s[4 * p + 1] else 0)
      && m[4 * p + 2] == (if st.b then s[4 * p + 2] else 0)
      && m[4 * p + 3] == (if st.a == Off then 255 else s[4 * p + 3])
  {}

  /** View-only mode shows the alpha as grey whatever the colour flags say, and makes the pixel opaque. */
  lemma MaskViewOnly(s: seq<Byte>, st: ChannelState, p: nat)
    requires |s| % 4 == 0 && p < |s| / 4 && st.a == ViewOnly
    ensures var m := Masked(s, st);
      && m[4 * p] == s[4 * p + 3] && m[4 * p + 1] == s[4 * p + 3] && m[4 * p + 2] == s[4 * p + 3]
      && m[4 * p + 3] == 255
  {}

  /** Outside view-only mode masking twice is masking once; in view-only mode a second pass turns every pixel white. */
  lemma MaskTwice(s: seq<Byte>, st: ChannelState)
    requires |s| % 4 == 0
    ensures st.a != ViewOnly ==> Masked(Masked(s, st), st) == Masked(s, st)
    ensures st.a == ViewOnly ==> forall i :: 0 <= i < |s| ==> Masked(Masked(s, st), st)[i] == 255
  {
    var m := Masked(s, st);
    if st.a == ViewOnly {
      forall i | 0 <= i < |s|
        ensures Masked(m, st)[i] == 255
      {
        var c := i % 4;
        assert m[i - c + 3] == 255;
      }
    }
  }

  // ---------------------------------------------------------------------
  // Range remap
  // ---------------------------------------------------------------------

  /** `Math.round(Math.max(0, Math.min(255, (v - min) * (255 / (max - min)))))`. */
  function RemapByte(v: Byte, min: real, max: real): Byte
    requires min < max
  {
    RoundHalfUp(Clamp(Scaled(v, min, max)))
  }

  function Remapped(s: seq<Byte>, min: real, max: real): seq<Byte>
    requires min < max
  {
    seq(|s|, i requires 0 <= i < |s| => RemapByte(s[i], min, max))
  }

  /** `applyRangeRemap`: nothing happens unless `min < max`. */
  method ApplyRangeRemap(data: array<Byte>, min: real, max: real)
    requires data.Length % 4 == 0
    modifies data
    ensures min >= max ==> data[..] == old(data[..])
    ensures min < max ==> data[..] == Remapped(old(data[..]), min, max)
  {
    if min >= max {
      return;
    }
    ghost var s := data[..];
    var n := data.Length / 4;
    var q := 0;
    while q < n
      invariant 0 <= q <= n && 4 * n == data.Length
      invariant forall j :: 0 <= j < 4 * q ==> data[j] == RemapByte(s[j], min, max)
      invariant forall j :: 4 * q <= j < data.Length ==> data[j] == s[j]
    {
      var i := 4 * q;
      var r, g, b, a := RemapByte(data[i], min, max), RemapByte(data[i + 1], min, max),
        RemapByte(data[i + 2], min, max), RemapByte(data[i + 3], min, max);
      data[i], data[i + 1], data[i + 2], data[i + 3] := r, g, b, a;
      q := q + 1;
    }
  }

  /** Multiplying by a positive factor keeps order. */
  lemma MulMonotone(x: real, y: real, c: real)
    requires x <= y && c > 0.0
    ensures x * c <= y * c
  {}

  /** `Math.round` keeps order. */
  lemma RoundMonotone(x: real, y: real)
    requires x <= y
    ensures RoundHalfUp(x) <= RoundHalfUp(y)
  {
    assert (x + 0.5).Floor as real <= x + 0.5 <= y + 0.5 < (y + 0.5).Floor as real + 1.0;
  }

  /** `(v - min) * scale` with `scale = 255 / (max - min)`. */
  function Scaled(v: Byte, min: real, max: real): real
    requires min < max
  {
    (v as real - min) * (255.0 / (max - min))
  }

  /** `Math.max(0, Math.min(255, x))`. */
  function Clamp(x: real): real {
    MaxR(0.0, MinR(255.0, x))
  }

  /** Clamping keeps order. */
  lemma ClampMonotone(x: real, y: real)
    requires x <= y
    ensures Clamp(x) <= Clamp(y)
  {}

  /** A byte at or below `min` maps to 0, one at or above `max` to 255. */
  lemma RemapEnds(v: Byte, min: real, max: real)
    requires min < max
    ensures v as real <= min ==> RemapByte(v, min, max) == 0
    ensures v as real >= max ==> RemapByte(v, min, max) == 255
  {
    var scale := 255.0 / (max - min);
    var x := Scaled(v, min, max);
    assert (max - min) * scale == 255.0;
    if v as real >= max {
      MulMonotone(max - min, v as real - min, scale);
      assert Clamp(x) == 255.0;
    } else if v as real <= min {
      MulMonotone(v as real - min, 0.0, scale);
      assert Clamp(x) == 0.0;
    }
  }

  /** The remap keeps the order of bytes. */
  lemma RemapMonotone(v: Byte, w: Byte, min: real, max: real)
    requires min < max && v <= w
    ensures RemapByte(v, min, max) <= RemapByte(w, min, max)
  {
    MulMonotone(v as real - min, w as real - min, 255.0 / (max - min));
    var x, y := Scaled(v, min, max), Scaled(w, min, max);
    ClampMonotone(x, y);
    RoundMonotone(Clamp(x), Clamp(y));
  }

  /** The default range [0, 255] maps every byte to itself. */
  lemma RemapDefaultIdentity(v: Byte)
    ensures RemapByte(v, 0.0, 255.0) == v
  {
    assert 255.0 / (255.0 - 0.0) == 1.0;
  }

  // ---------------------------------------------------------------------
  // The card's state
  // ---------------------------------------------------------------------

  /** `clamp255`: round, then clamp to [0, 255]. */
  function Clamp255(v: real): (r: Byte) {
    Min(255, Max(0, RoundHalfUp(v)))
  }

  /** A whole number in range is kept. */
  lemma Clamp255Whole(v: real)
    requires v.Floor as real == v && 0.0 <= v <= 255.0
    ensures Clamp255(v) as real == v
  {
    assert RoundHalfUp(v) == v.Floor;
  }

  /** Anything at or below 0 gives 0 and anything at or above 255 gives 255. */
  lemma Clamp255Ends(v: real)
    ensures v <= 0.0 ==> Clamp255(v) == 0
    ensures v >= 255.0 ==> Clamp255(v) == 255
  {}

  /** Clamping keeps order. */
  lemma Clamp255Monotone(v: real, w: real)
    requires v <= w
    ensures Clamp255(v) <= Clamp255(w)
  {
    RoundMonotone(v, w);
  }

  /** The colour channel buttons of the card. */
  datatype ColourKey = R | G | B

  /** The card's channel and range state, which its buttons and inputs change. */
  class DebugNodeCard {
    var channelState: ChannelState
    var rangeMin: real
    var rangeMax: real
    /** How many times the card has asked for a re-render. */
    var renderRequests: nat

    constructor()
      ensures channelState == DEFAULT_CHANNEL_STATE && rangeMin == 0.0 && rangeMax == 255.0
      ensures renderRequests == 0
    {
      channelState := DEFAULT_CHANNEL_STATE;
      rangeMin := 0.0;
      rangeMax := 255.0;
      renderRequests := 0;
    }

    /** A colour button flips its own flag and nothing else, then asks for a render. */
    method ToggleColour(k: ColourKey)
      modifies this
      ensures k == R ==> channelState == old(channelState).(r := !old(channelState).r)
      ensures k == G ==> channelState == old(channelState).(g := !old(channelState).g)
      ensures k == B ==> channelState == old(channelState).(b := !old(channelState).b)
      ensures rangeMin == old(rangeMin) && rangeMax == old(rangeMax)
      ensures renderRequests == old(renderRequests) + 1
    {
      match k {
        case R => channelState := channelState.(r := !channelState.r);
        case G => channelState := channelState.(g := !channelState.g);
        case B => channelState := channelState.(b := !channelState.b);
      }
      renderRequests := renderRequests + 1;
    }

    /** The alpha button moves to the next alpha mode, then asks for a render. */
    method CycleAlpha()
      modifies this
      ensures channelState == old(channelState).(a := NextAlphaMode(old(channelState).a))
      ensures rangeMin == old(rangeMin) && rangeMax == old(rangeMax)
      ensures renderRequests == old(renderRequests) + 1
    {
      var idx := IndexOfMode(channelState.a);
      channelState := channelState.(a := ALPHA_MODE_ORDER[(idx + 1) % |ALPHA_MODE_ORDER|]);
      renderRequests := renderRequests + 1;
    }

    /** Dragging the min slider stores its value as it is. */
    method SlideMin(v: real)
      modifies this
      ensures rangeMin == v && rangeMax == old(rangeMax) && channelState == old(channelState)
      ensures renderRequests == old(renderRequests) + 1
    {
      rangeMin := v;
      renderRequests := renderRequests + 1;
    }

    /** Dragging the max slider stores its value as it is. */
    method SlideMax(v: real)
      modifies this
      ensures rangeMax == v && rangeMin == old(rangeMin) && channelState == old(channelState)
      ensures renderRequests == old(renderRequests) + 1
    {
      rangeMax := v;
      renderRequests := renderRequests + 1;
    }

    /** A number typed into the min box is rounded and clamped to [0, 255]. */
    method TypeMin(v: real)
      modifies this
      ensures rangeMin == Clamp255(v) as real && rangeMax == old(rangeMax) && channelState == old(channelState)
      ensures renderRequests == old(renderRequests) + 1
    {
      rangeMin := Clamp255(v) as real;
      renderRequests := renderRequests + 1;
    }

    /** A number typed into the max box is rounded and clamped to [0, 255]. */
    method TypeMax(v: real)
      modifies this
      ensures rangeMax == Clamp255(v) as real && rangeMin == old(rangeMin) && channelState == old(channelState)
      ensures renderRequests == old(renderRequests) + 1
    {
      rangeMax := Clamp255(v) as real;
      renderRequests := renderRequests + 1;
    }
  }
}
