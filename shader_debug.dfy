// The shader debug page: a plain on/off mask per RGBA channel for each
// pipeline stage's preview, the channel buttons that flip it, and the render
// scheduler that keeps at most one animation frame outstanding.

module ShaderDebug {
  import opened Basics
  import DebugCard

  /** The four previewed stages of the halftone pipeline. */
  datatype Stage = Source | Sat | Pass1 | Final

  /** Which of a preview's RGBA channels are shown. */
  datatype Mask = Mask(r: bool, g: bool, b: bool, a: bool)

  const ALL_SHOWN: Mask := Mask(true, true, true, true)

  /** Whether channel `c` (0 red, 1 green, 2 blue, 3 alpha) is shown. */
  function Shown(m: Mask, c: nat): bool
    requires c < 4
  {
    if c == 0 then m.r else if c == 1 then m.g else if c == 2 then m.b else m.a
  }

  /** Every byte of a hidden channel is 0; every other byte is kept. */
  function MaskedBytes(s: seq<Byte>, m: Mask): seq<Byte> {
    seq(|s|, i requires 0 <= i < |s| => if Shown(m, i % 4) then s[i] else 0)
  }

  /** The page's `applyChannelMask` on a preview's pixel buffer. */
  method ApplyChannelMask(data: array<Byte>, m: Mask)
    requires data.Length % 4 == 0
    modifies data
    ensures data[..] == MaskedBytes(old(data[..]), m)
  {
    ghost var s := data[..];
    var i := 0;
    while i < data.Length
      invariant 0 <= i <= data.Length && i % 4 == 0
      invariant forall j :: 0 <= j < i ==> data[j] == (if Shown(m, j % 4) then s[j] else 0)
      invariant forall j :: i <= j < data.Length ==> data[j] == s[j]
    {
      if !m.r { data[i] := 0; }
      if !m.g { data[i + 1] := 0; }
      if !m.b { data[i + 2] := 0; }
      if !m.a { data[i + 3] := 0; }
      i := i + 4;
    }
  }

  /** With every channel shown the buffer is unchanged. */
  lemma AllShownUnchanged(s: seq<Byte>)
    ensures MaskedBytes(s, ALL_SHOWN) == s
  {}

  /** Only bytes of hidden channels change, and they become 0. */
  lemma OnlyHiddenChange(s: seq<Byte>, m: Mask, i: nat)
    requires i < |s|
    ensures MaskedBytes(s, m)[i] != s[i] ==> !Shown(m, i % 4) && MaskedBytes(s, m)[i] == 0
    ensures !Shown(m, i % 4) ==> MaskedBytes(s, m)[i] == 0
  {}

  /** Masking twice hides the channels hidden by either mask. */
  lemma MaskCompose(s: seq<Byte>, m1: Mask, m2: Mask)
    ensures MaskedBytes(MaskedBytes(s, m1), m2) == MaskedBytes(s, Mask(m1.r && m2.r, m1.g && m2.g, m1.b && m2.b, m1.a && m2.a))
  {}

  /**
   * Hiding alpha here makes a pixel transparent (alpha 0), whereas the node
   * card's alpha-off mode makes it opaque (alpha 255).
   */
  lemma AlphaHiddenDiffersFromCard(s: seq<Byte>, p: nat)
    requires |s| % 4 == 0 && p < |s| / 4
    ensures MaskedBytes(s, Mask(true, true, true, false))[4 * p + 3] == 0
    ensures DebugCard.Masked(s, DebugCard.ChannelState(true, true, true, DebugCard.Off))[4 * p + 3] == 255
  {}

  /** The channel mask of every stage. */
  datatype StageMasks = StageMasks(source: Mask, sat: Mask, pass1: Mask, final: Mask)

  function MaskOf(ms: StageMasks, st: Stage): Mask {
    match st
    case Source => ms.source
    case Sat => ms.sat
    case Pass1 => ms.pass1
    case Final => ms.final
  }

  function WithMask(ms: StageMasks, st: Stage, m: Mask): StageMasks {
    match st
    case Source => ms.(source := m)
    case Sat => ms.(sat := m)
    case Pass1 => ms.(pass1 := m)
    case Final => ms.(final := m)
  }

  /** `m` with the flag of channel `c` flipped. */
  function Flipped(m: Mask, c: nat): (r: Mask)
    requires c < 4
    ensures Shown(r, c) == !Shown(m, c)
    ensures forall d :: 0 <= d < 4 && d != c ==> Shown(r, d) == Shown(m, d)
  {
    if c == 0 then m.(r := !m.r) else if c == 1 then m.(g := !m.g)
    else if c == 2 then m.(b := !m.b) else m.(a := !m.a)
  }

  /** Replacing one stage's mask leaves every other stage's mask alone. */
  lemma WithMaskOthers(ms: StageMasks, st: Stage, m: Mask, other: Stage)
    ensures MaskOf(WithMask(ms, st, m), st) == m
    ensures other != st ==> MaskOf(WithMask(ms, st, m), other) == MaskOf(ms, other)
  {}

  /** Flipping a channel twice restores the mask. */
  lemma FlipTwice(m: Mask, c: nat)
    requires c < 4
    ensures Flipped(Flipped(m, c), c) == m
  {}

  /**
   * The page's channel state and frame scheduling. `pending` is
   * `rafId != null`; `outstanding` counts frames requested and not yet run.
   */
  class DebugPage {
    var masks: StageMasks
    var pending: bool
    ghost var outstanding: nat
    /** How many frames have been requested over the page's life. */
    var framesRequested: nat

    /** At most one frame is outstanding, and `pending` says whether one is. */
    ghost predicate Valid()
      reads this
    {
      outstanding <= 1 && (pending <==> outstanding == 1)
    }

    /** Every stage starts with every channel shown, and no frame pending. */
    constructor()
      ensures Valid()
      ensures forall st :: MaskOf(masks, st) == ALL_SHOWN
      ensures !pending && framesRequested == 0
    {
      masks := StageMasks(ALL_SHOWN, ALL_SHOWN, ALL_SHOWN, ALL_SHOWN);
      pending := false;
      outstanding := 0;
      framesRequested := 0;
    }

    /** `scheduleRender`: a frame is requested only when none is pending. */
    method ScheduleRender()
      requires Valid()
      modifies this
      ensures Valid() && pending && masks == old(masks)
      ensures framesRequested == old(framesRequested) + (if old(pending) then 0 else 1)
    {
      if pending {
        return;
      }
      pending := true;
      outstanding := outstanding + 1;
      framesRequested := framesRequested + 1;
    }

    /** The requested frame runs: the pending mark is cleared before rendering. */
    method RunFrame()
      requires Valid() && pending
      modifies this
      ensures Valid() && !pending && masks == old(masks) && framesRequested == old(framesRequested)
    {
      pending := false;
      outstanding := outstanding - 1;
    }

    /** A channel button flips exactly that stage's flag for that channel, then schedules a render. */
    method ToggleChannel(st: Stage, c: nat)
      requires Valid() && c < 4
      modifies this
      ensures Valid() && pending
      ensures masks == WithMask(old(masks), st, Flipped(MaskOf(old(masks), st), c))
    {
      masks := WithMask(masks, st, Flipped(MaskOf(masks, st), c));
      ScheduleRender();
    }
  }
}
