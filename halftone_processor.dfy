/**
 * The bookkeeping side of `HalftoneProcessor`: tile and step derivation,
 * the lazily (re)allocated size-dependent GPU objects, the memoised SAT,
 * the four-way stage branch, shader hot-reload and disposal.
 *
 * WebGL objects are opaque `Handle`s. The context is a `Gl` value that
 * records which handles are alive, every deletion in order, and the next
 * fresh handle. Whether an allocation, a compile or a link succeeds is an
 * input (`Alloc`, `ShaderOutcome`). Drawing is recorded as a list of
 * `Draw` commands carrying the uniforms the source uploads.
 */
module Processor {
  import opened Basics
  import opened SatRgb

  type Handle = nat

  /** Fixed neighbourhood width of pass 1. */
  const NEIGHBOR_SIZE: nat := 5
  const FIELD_SCALE: real := 20.0

  /** The 17 parameters the processor reads. */
  datatype ProcessorParams = ProcessorParams(
    n: int, n2: int, blendValue: real, offset2: real, baseScale: real, gapPercent: real,
    threshold: real, soft: real, softFineness: real, contrast: real, contrastOnlyLuma: bool,
    bgColor: string, useColorBlend: real, monoColor: string, lumaToAlpha: bool,
    lumaToAlphaEdge0: real, lumaToAlphaEdge1: real)

  datatype Stage = SourceStage | SatStage | Pass1Stage | FinalStage

  /** An image or canvas: its identity (`===`) is `id`. */
  datatype Image = Image(id: nat, width: nat, height: nat)

  /** The WebGL context's object bookkeeping. */
  datatype Gl = Gl(live: set<Handle>, deleted: seq<Handle>, next: Handle)

  /** A uniform-location record; every location in it was looked up in `program`. */
  datatype Locations = Locations(program: Handle)

  /** Which of the allocations in `ensureSize` succeed (`cropCtxOk`: `getContext("2d")`). */
  datatype Alloc = Alloc(satTexOk: bool, fbTexOk: bool, fbOk: bool, sourceTexOk: bool, cropCtxOk: bool)

  /** Which of the three compiles and two links in `reloadShaders` succeed. */
  datatype ShaderOutcome = ShaderOutcome(vsOk: bool, fs1Ok: bool, fs2Ok: bool, link1Ok: bool, link2Ok: bool)

  datatype Pass1Uniforms = Pass1Uniforms(
    size: nat, sizeP1: nat, step1: nat, step2: nat, area1: nat, area2: nat,
    fieldScale: real, radius1: nat, radius2: nat,
    blendValue: real, offset2: real, contrast: real, contrastOnlyLuma: bool)

  datatype Pass2Uniforms = Pass2Uniforms(
    fieldScale: real, threshold: real, soft: real, softFineness: real,
    bgColor: (Option<real>, Option<real>, Option<real>), useColorBlend: real,
    monoColor: (Option<real>, Option<real>, Option<real>),
    lumaToAlpha: bool, lumaToAlphaEdge0: real, lumaToAlphaEdge1: real)

  /** What `render` sends to the GPU, in order. */
  datatype Draw =
    | UploadSat(tex: Handle, side: nat)
    | BlitSource(tex: Handle)
    | BlitSat(tex: Handle, size: nat)
    | DrawPass1(program: Handle, locs: Locations, target: Handle, sat: Handle, u1: Pass1Uniforms)
    | BlitPass1(tex: Handle)
    | DrawPass2(program: Handle, locs: Locations, input: Handle, u2: Pass2Uniforms)

  // ---------------------------------------------------------------------
  // Tile and step arithmetic
  // ---------------------------------------------------------------------

  function Pow2(k: nat): (r: nat)
    ensures r >= 1
  {
    if k == 0 then 1 else 2 * Pow2(k - 1)
  }

  /** `Math.floor(Math.log2(m))` for `m >= 1`. */
  function Log2Floor(m: nat): (k: nat)
    requires m >= 1
    ensures Pow2(k) <= m < 2 * Pow2(k)
  {
    if m == 1 then 0 else 1 + Log2Floor(m / 2)
  }

  /** `n1Log = Math.max(1, Math.floor(Math.log2(minSide)))`; `Math.log2(0)` is -Infinity. */
  function TileLog(width: nat, height: nat): (k: nat)
    ensures k >= 1
  {
    var m := Min(width, height);
    if m == 0 then 1 else if Log2Floor(m) < 1 then 1 else Log2Floor(m)
  }

  /** The side of the square tile: `2 ** n1Log`. */
  function TileSize(width: nat, height: nat): nat {
    Pow2(TileLog(width, height))
  }

  /** `Math.max(0, Math.min(v, hi))`. */
  function ClampLevel(v: int, hi: nat): (n: nat)
    ensures n <= hi
    ensures 0 <= v <= hi ==> n == v
    ensures v < 0 ==> n == 0
    ensures v > hi ==> n == hi
  {
    if v < 0 then 0 else if v > hi then hi else v
  }

  lemma {:induction false} Pow2Add(a: nat, b: nat)
    ensures Pow2(a + b) == Pow2(a) * Pow2(b)
    decreases a
  {
    if a > 0 {
      Pow2Add(a - 1, b);
      assert Pow2(a + b) == 2 * Pow2(a - 1 + b);
    }
  }

  lemma {:induction false} Pow2Monotone(a: nat, b: nat)
    requires a <= b
    ensures Pow2(a) <= Pow2(b)
    decreases b
  {
    if a < b {
      Pow2Monotone(a, b - 1);
    }
  }

  /** The tile is a power of two, at least 2, and the largest one that fits the shorter side. */
  lemma TileSizeBounds(width: nat, height: nat)
    ensures TileSize(width, height) == Pow2(TileLog(width, height)) >= 2
    ensures Min(width, height) >= 2 ==>
              TileSize(width, height) <= Min(width, height) < 2 * TileSize(width, height)
  {
    Pow2Monotone(1, TileLog(width, height));
  }

  /** `2 ** (n1Log - n)` for a clamped level: a power of two in `[1, size]` dividing `size`. */
  lemma StepDividesTile(n1Log: nat, v: int)
    ensures var n := ClampLevel(v, n1Log);
            var step := Pow2(n1Log - n);
            1 <= step <= Pow2(n1Log) && step * Pow2(n) == Pow2(n1Log)
  {
    var n := ClampLevel(v, n1Log);
    Pow2Add(n1Log - n, n);
    Pow2Monotone(n1Log - n, n1Log);
  }

  // ---------------------------------------------------------------------
  // GPU object bookkeeping
  // ---------------------------------------------------------------------

  /** `gl.createX()`: a fresh handle, or null. */
  function Allocate(g: Gl, ok: bool): (Gl, Option<Handle>)
  {
    if ok then (Gl(g.live + {g.next}, g.deleted, g.next + 1), Some(g.next)) else (g, None)
  }

  /** `if (h) gl.deleteX(h)`. */
  function Release(g: Gl, h: Option<Handle>): Gl
  {
    if h.Some? then Gl(g.live - {h.value}, g.deleted + [h.value], g.next) else g
  }

  /** No live handle is at or beyond the next fresh one. */
  predicate GlWf(g: Gl) {
    forall h :: h in g.live ==> h < g.next
  }

  // ---------------------------------------------------------------------
  // Processor state as a value
  // ---------------------------------------------------------------------

  /**
   * Every field `render`, `ensureSize`, `reloadShaders` and `dispose` read or
   * write. `bufferLen` is the length of `satBuffer` (`None`: null);
   * `satTexHolds` is the (image, size) whose SAT the GPU texture `satTex`
   * currently holds, `None` when it was never uploaded.
   */
  datatype Proc = Proc(
    currentSize: nat,
    satTex: Option<Handle>, fbTex: Option<Handle>, fb: Option<Handle>, sourceTex: Option<Handle>,
    cropReady: bool, canvasWidth: nat, canvasHeight: nat, bufferLen: Option<nat>,
    lastImage: Option<nat>, lastSize: nat, satTexHolds: Option<(nat, nat)>,
    programPass1: Handle, programPass2: Handle, loc1: Locations, loc2: Locations,
    gl: Gl)

  /** The scratch buffer is null only before the first completed `ensureSize`, and fits `currentSize`. */
  predicate BufferFits(s: Proc) {
    match s.bufferLen
    case None => s.currentSize == 0
    case Some(len) => len >= SatLen(s.currentSize)
  }

  /** The resource check after `ensureSize` in `render`. */
  predicate Ready(s: Proc) {
    s.satTex.Some? && s.fb.Some? && s.fbTex.Some? && s.cropReady && s.bufferLen.Some? && s.sourceTex.Some?
  }

  /** The first half of `ensureSize`: every size-dependent object is deleted and nulled, the canvas resized. */
  function Cleared(s: Proc, size: nat, invalidate: bool): Proc {
    s.(satTex := None, fbTex := None, fb := None, sourceTex := None,
       cropReady := false, satTexHolds := None,
       canvasWidth := size, canvasHeight := size,
       lastImage := if invalidate then None else s.lastImage,
       gl := Release(Release(Release(Release(s.gl, s.satTex), s.fbTex), s.fb), s.sourceTex))
  }

  /** `satTex`, then `fbTex` and `fb`, are created (lines 236-246 of the source). */
  function AllocTargets(c: Proc, a: Alloc): Proc {
    var r1 := Allocate(c.gl, a.satTexOk);
    if r1.1.None? then c.(gl := r1.0, satTex := None)
    else
      var r2 := Allocate(r1.0, a.fbTexOk);
      var r3 := Allocate(r2.0, a.fbOk);
      c.(gl := r3.0, satTex := r1.1, fbTex := r2.1, fb := r3.1)
  }

  /** The rest of `ensureSize` once the targets exist: source texture, crop context, buffer, size. */
  function FinishSized(c: Proc, size: nat, a: Alloc): Proc {
    var r4 := Allocate(c.gl, a.sourceTexOk);
    var len := SatLen(size);
    c.(gl := r4.0, sourceTex := r4.1, cropReady := a.cropCtxOk,
       bufferLen := if c.bufferLen.None? || c.bufferLen.value < len then Some(len) else c.bufferLen,
       currentSize := size)
  }

  predicate TargetsReady(c: Proc) {
    c.satTex.Some? && c.fbTex.Some? && c.fb.Some?
  }

  /**
   * The second half of `ensureSize`: allocate in order, giving up after a
   * failed `satTex`, or a failed `fbTex` or `fb`, without touching
   * `currentSize`.
   */
  function Reallocate(c: Proc, size: nat, a: Alloc): Proc {
    var t := AllocTargets(c, a);
    if TargetsReady(t) then FinishSized(t, size, a) else t
  }

  /**
   * `ensureSize(size)`. With `invalidate` the SAT cache key is also cleared
   * whenever the objects are recreated; the source does not do that
   * (`invalidate == false`), see `StaleSatAfterIncompleteResize`.
   */
  function EnsureSizeWith(s: Proc, size: nat, a: Alloc, invalidate: bool): Proc {
    if size == s.currentSize then s else Reallocate(Cleared(s, size, invalidate), size, a)
  }

  /** Objects are all present after `ensureSize(size)` only if the processor is at that size. */
  lemma ReadyAtSize(s: Proc, size: nat, a: Alloc, invalidate: bool)
    ensures Ready(EnsureSizeWith(s, size, a, invalidate)) ==> EnsureSizeWith(s, size, a, invalidate).currentSize == size
  {
  }

  /** `ensureSize` as written. */
  function EnsureSizeSpec(s: Proc, size: nat, a: Alloc): Proc {
    EnsureSizeWith(s, size, a, false)
  }

  function Pass1Draw(s: Proc, n1Log: nat, p: ProcessorParams): Draw
    requires Ready(s)
  {
    var size := Pow2(n1Log);
    var n := ClampLevel(p.n, n1Log);
    var n2 := ClampLevel(p.n2, n1Log);
    var step1 := Pow2(n1Log - n);
    var step2 := Pow2(n1Log - n2);
    var radius := (NEIGHBOR_SIZE - 1) / 2;
    DrawPass1(s.programPass1, s.loc1, s.fb.value, s.satTex.value,
      Pass1Uniforms(size, size + 1, step1, step2, step1 * step1 * 255, step2 * step2 * 255, FIELD_SCALE,
        if n == 0 then 0 else radius, if n2 == 0 then 0 else radius,
        p.blendValue, p.offset2, p.contrast, p.contrastOnlyLuma))
  }

  function Pass2Draw(s: Proc, p: ProcessorParams): Draw
    requires Ready(s)
  {
    DrawPass2(s.programPass2, s.loc2, s.fbTex.value,
      Pass2Uniforms(FIELD_SCALE, p.threshold, p.soft, p.softFineness, HexToRgb(p.bgColor),
        p.useColorBlend, HexToRgb(p.monoColor), p.lumaToAlpha, p.lumaToAlphaEdge0, p.lumaToAlphaEdge1))
  }

  /** The draws after the SAT cache check: the four-way stage branch. */
  function StageDraws(s: Proc, stage: Stage, n1Log: nat, p: ProcessorParams): seq<Draw>
    requires Ready(s)
  {
    match stage
    case SourceStage => [BlitSource(s.sourceTex.value)]
    case SatStage => [BlitSat(s.satTex.value, Pow2(n1Log))]
    case Pass1Stage => [Pass1Draw(s, n1Log, p), BlitPass1(s.fbTex.value)]
    case FinalStage => [Pass1Draw(s, n1Log, p), Pass2Draw(s, p)]
  }

  /** The SAT cache check: rebuild and upload unless `(image, size)` is the cached key. */
  function CacheStep(t: Proc, id: nat, size: nat): (Proc, seq<Draw>)
    requires Ready(t)
  {
    if t.lastImage == Some(id) && t.lastSize == size then (t, [])
    else (t.(lastImage := Some(id), lastSize := size, satTexHolds := Some((id, size))),
          [UploadSat(t.satTex.value, size + 1)])
  }

  /** `render` after `ensureSize`: the resource check, the SAT cache check and the stage branch. */
  function RenderSized(t: Proc, id: nat, n1Log: nat, p: ProcessorParams, stage: Stage): (Proc, Option<seq<Draw>>) {
    if !Ready(t) then (t, None)
    else
      var c := CacheStep(t, id, Pow2(n1Log));
      (c.0, Some(c.1 + StageDraws(c.0, stage, n1Log, p)))
  }

  /** `render(image, params, stage)`: the new state and the draws (`None` is `null`). */
  function RenderWith(s: Proc, image: Image, p: ProcessorParams, stage: Stage, a: Alloc, invalidate: bool)
    : (Proc, Option<seq<Draw>>)
  {
    if image.width == 0 then (s, None)
    else
      var n1Log := TileLog(image.width, image.height);
      RenderSized(EnsureSizeWith(s, Pow2(n1Log), a, invalidate), image.id, n1Log, p, stage)
  }

  /** `render` as written. */
  function RenderSpec(s: Proc, image: Image, p: ProcessorParams, stage: Stage, a: Alloc): (Proc, Option<seq<Draw>>) {
    RenderWith(s, image, p, stage, a, false)
  }

  /** The three compiles of `reloadShaders`: the new context and the vertex and two fragment shaders. */
  function CompileAll(g: Gl, o: ShaderOutcome): (Gl, Option<Handle>, Option<Handle>, Option<Handle>) {
    var vs := Allocate(g, o.vsOk);
    var fs1 := Allocate(vs.0, o.fs1Ok);
    var fs2 := Allocate(fs1.0, o.fs2Ok);
    (fs2.0, vs.1, fs1.1, fs2.1)
  }

  /** The two links of `reloadShaders`, after which all three shaders are deleted. */
  function LinkAll(g: Gl, o: ShaderOutcome, vs: Handle, fs1: Handle, fs2: Handle): (Gl, Option<Handle>, Option<Handle>) {
    var p1 := Allocate(g, o.link1Ok);
    var p2 := Allocate(p1.0, o.link2Ok);
    (Release(Release(Release(p2.0, Some(vs)), Some(fs1)), Some(fs2)), p1.1, p2.1)
  }

  /** The old pair is deleted and the new pair installed with freshly looked-up locations. */
  function Install(s: Proc, p1: Handle, p2: Handle): Proc {
    s.(gl := Release(Release(s.gl, Some(s.programPass1)), Some(s.programPass2)),
       programPass1 := p1, programPass2 := p2, loc1 := Locations(p1), loc2 := Locations(p2))
  }

  /** `reloadShaders(sources)` as written: the new state and the returned flag. */
  function ReloadSpec(s: Proc, o: ShaderOutcome): (Proc, bool) {
    var c := CompileAll(s.gl, o);
    if c.1.None? || c.2.None? || c.3.None? then (s.(gl := c.0), false)
    else
      var l := LinkAll(c.0, o, c.1.value, c.2.value, c.3.value);
      if l.1.None? || l.2.None? then (s.(gl := l.0), false)
      else (Install(s.(gl := l.0), l.1.value, l.2.value), true)
  }

  /** `dispose()`: deletions in the order the source issues them. */
  function DisposeSpec(s: Proc, programBlit: Handle, programBlitSat: Handle, quadBuf: Handle): Gl {
    var g := Release(Release(Release(Release(s.gl, s.satTex), s.fbTex), s.sourceTex), s.fb);
    Release(Release(Release(Release(Release(g, Some(quadBuf)), Some(s.programPass1)),
      Some(s.programPass2)), Some(programBlit)), Some(programBlitSat))
  }

  // ---------------------------------------------------------------------
  // The processor object
  // ---------------------------------------------------------------------

  class HalftoneProcessor {
    var programPass1: Handle
    var programPass2: Handle
    var loc1: Locations
    var loc2: Locations
    const programBlit: Handle
    const programBlitSat: Handle
    const quadBuf: Handle
    var satTex: Option<Handle>
    var fbTex: Option<Handle>
    var fb: Option<Handle>
    var sourceTex: Option<Handle>
    /** `cropCanvas`/`cropCtx` are both present. */
    var cropReady: bool
    var canvasWidth: nat
    var canvasHeight: nat
    var currentSize: nat
    var satBuffer: array?<int>
    var lastImage: Option<nat>
    var lastSize: nat
    /** GPU-side content of `satTex`: the (image, size) last uploaded into it. */
    var satTexHolds: Option<(nat, nat)>
    var gl: Gl

    function State(): Proc
      reads this
    {
      Proc(currentSize, satTex, fbTex, fb, sourceTex, cropReady, canvasWidth, canvasHeight,
           if satBuffer == null then None else Some(satBuffer.Length),
           lastImage, lastSize, satTexHolds, programPass1, programPass2, loc1, loc2, gl)
    }

    predicate Valid()
      reads this
    {
      BufferFits(State())
    }

    /** The private constructor: programs, locations and quad buffer come from `create`. */
    constructor(programPass1: Handle, programPass2: Handle, programBlit: Handle, programBlitSat: Handle,
                quadBuf: Handle, canvasWidth: nat, canvasHeight: nat, gl: Gl)
      ensures Valid()
      ensures State() == Proc(0, None, None, None, None, false, canvasWidth, canvasHeight, None,
                              None, 0, None, programPass1, programPass2,
                              Locations(programPass1), Locations(programPass2), gl)
      ensures this.programBlit == programBlit && this.programBlitSat == programBlitSat && this.quadBuf == quadBuf
    {
      this.programPass1 := programPass1;
      this.programPass2 := programPass2;
      this.programBlit := programBlit;
      this.programBlitSat := programBlitSat;
      this.quadBuf := quadBuf;
      this.loc1 := Locations(programPass1);
      this.loc2 := Locations(programPass2);
      this.canvasWidth := canvasWidth;
      this.canvasHeight := canvasHeight;
      this.gl := gl;
      satTex, fbTex, fb, sourceTex := None, None, None, None;
      cropReady := false;
      currentSize := 0;
      satBuffer := null;
      lastImage, lastSize := None, 0;
      satTexHolds := None;
    }

    method EnsureSize(size: nat, a: Alloc)
      requires Valid()
      modifies this
      ensures Valid()
      ensures State() == EnsureSizeSpec(old(State()), size, a)
      ensures satBuffer == old(satBuffer) || (satBuffer != null && fresh(satBuffer))
    {
      if size == currentSize {
        return;
      }
      ReleaseSized(size);
      AllocateSized(size, a);
    }

    /** Lines 221-233 of the source: the size-dependent objects are deleted, the crop canvas dropped, the canvas resized. */
    method ReleaseSized(size: nat)
      modifies this
      ensures State() == Cleared(old(State()), size, false)
      ensures satBuffer == old(satBuffer)
    {
      DeleteSizedObjects();
      satTexHolds := None;
      cropReady := false;
      canvasWidth := size;
      canvasHeight := size;
    }

    /** Lines 221-230 of the source: each present object is deleted, then its field nulled. */
    method DeleteSizedObjects()
      modifies this
      ensures State() == old(State()).(satTex := None, fbTex := None, fb := None, sourceTex := None,
                gl := Release(Release(Release(Release(old(gl), old(satTex)), old(fbTex)), old(fb)), old(sourceTex)))
      ensures satBuffer == old(satBuffer)
    {
      gl := Release(gl, satTex);
      satTex := None;
      gl := Release(gl, fbTex);
      fbTex := None;
      gl := Release(gl, fb);
      fb := None;
      gl := Release(gl, sourceTex);
      sourceTex := None;
    }

    method AllocateSized(size: nat, a: Alloc)
      requires Valid()
      requires satTex.None? && fbTex.None? && fb.None?
      modifies this
      ensures Valid()
      ensures State() == Reallocate(old(State()), size, a)
      ensures satBuffer == old(satBuffer) || (satBuffer != null && fresh(satBuffer))
    {
      AllocateTargets(a);
      if satTex.None? || fbTex.None? || fb.None? {
        return;
      }
      FinishSizedObjects(size, a);
    }

    method AllocateTargets(a: Alloc)
      requires satTex.None? && fbTex.None? && fb.None?
      modifies this
      ensures State() == AllocTargets(old(State()), a)
      ensures satBuffer == old(satBuffer)
    {
      var r := Allocate(gl, a.satTexOk);
      gl, satTex := r.0, r.1;
      if satTex.None? {
        return;
      }
      r := Allocate(gl, a.fbTexOk);
      gl, fbTex := r.0, r.1;
      r := Allocate(gl, a.fbOk);
      gl, fb := r.0, r.1;
    }

    method FinishSizedObjects(size: nat, a: Alloc)
      requires Valid()
      modifies this
      ensures Valid()
      ensures State() == FinishSized(old(State()), size, a)
      ensures satBuffer == old(satBuffer) || (satBuffer != null && fresh(satBuffer))
    {
      var r := Allocate(gl, a.sourceTexOk);
      gl, sourceTex := r.0, r.1;
      cropReady := a.cropCtxOk;
      var satLen := SatLen(size);
      if satBuffer == null || satBuffer.Length < satLen {
        satBuffer := new int[satLen](_ => 0);
      }
      currentSize := size;
    }

    /**
     * `render`. `pixels` is what `getImageData` returns for the centred
     * `size`×`size` crop of `image` (it is read only on a cache miss).
     */
    method Render(image: Image, p: ProcessorParams, stage: Stage, a: Alloc, pixels: seq<Byte>)
      returns (r: Option<seq<Draw>>)
      requires Valid()
      requires image.width > 0 ==>
                 |pixels| == TileSize(image.width, image.height) * TileSize(image.width, image.height) * 4
      modifies this, satBuffer
      ensures Valid()
      ensures (State(), r) == RenderSpec(old(State()), image, p, stage, a)
      ensures r.Some? && r.value[0].UploadSat? ==>
                satBuffer != null && IsSatOf(satBuffer[..], pixels, TileSize(image.width, image.height))
    {
      if image.width == 0 {
        return None;
      }
      var n1Log := TileLog(image.width, image.height);
      var size := Pow2(n1Log);
      EnsureSize(size, a);
      ReadyAtSize(old(State()), size, a, false);
      r := RenderAtSize(image.id, n1Log, p, stage, pixels);
    }

    /** Everything `render` does after `ensureSize(2 ** n1Log)`. */
    method RenderAtSize(id: nat, n1Log: nat, p: ProcessorParams, stage: Stage, pixels: seq<Byte>)
      returns (r: Option<seq<Draw>>)
      requires Valid() && (Ready(State()) ==> currentSize == Pow2(n1Log))
      requires |pixels| == Pow2(n1Log) * Pow2(n1Log) * 4
      modifies this, satBuffer
      ensures Valid()
      ensures (State(), r) == RenderSized(old(State()), id, n1Log, p, stage)
      ensures r.Some? && r.value[0].UploadSat? ==> satBuffer != null && IsSatOf(satBuffer[..], pixels, Pow2(n1Log))
    {
      if satTex.None? || fb.None? || fbTex.None? || !cropReady || satBuffer == null || sourceTex.None? {
        return None;
      }
      var upload := RefreshSat(id, Pow2(n1Log), pixels);
      var draws := StageCommands(stage, n1Log, p);
      return Some(upload + draws);
    }

    /** The SAT cache check of `render`, on a processor whose objects are all present. */
    method RefreshSat(id: nat, size: nat, pixels: seq<Byte>) returns (upload: seq<Draw>)
      requires Valid() && Ready(State()) && currentSize == size
      requires |pixels| == size * size * 4
      modifies this, satBuffer
      ensures Valid() && satBuffer == old(satBuffer)
      ensures (State(), upload) == CacheStep(old(State()), id, size)
      ensures upload != [] ==> satBuffer != null && IsSatOf(satBuffer[..], pixels, size)
    {
      var hit := lastImage == Some(id) && lastSize == size;
      if hit {
        return [];
      }
      BuildSatRgbInto(pixels, size, satBuffer);
      upload := [UploadSat(satTex.value, size + 1)];
      satTexHolds := Some((id, size));
      lastImage := Some(id);
      lastSize := size;
    }

    /** The stage branch of `render`: which blits and passes run. */
    method StageCommands(stage: Stage, n1Log: nat, p: ProcessorParams) returns (draws: seq<Draw>)
      requires Ready(State())
      ensures draws == StageDraws(State(), stage, n1Log, p)
    {
      var size := Pow2(n1Log);
      if stage == SourceStage {
        return [BlitSource(sourceTex.value)];
      }
      if stage == SatStage {
        return [BlitSat(satTex.value, size)];
      }
      draws := [Pass1Draw(State(), n1Log, p)];
      if stage == Pass1Stage {
        return draws + [BlitPass1(fbTex.value)];
      }
      return draws + [Pass2Draw(State(), p)];
    }

    method ReloadShaders(o: ShaderOutcome) returns (ok: bool)
      requires Valid()
      modifies this
      ensures Valid()
      ensures State() == ReloadSpec(old(State()), o).0
      ensures ok == ReloadSpec(old(State()), o).1
    {
      var vs := Allocate(gl, o.vsOk);
      gl := vs.0;
      var fs1 := Allocate(gl, o.fs1Ok);
      gl := fs1.0;
      var fs2 := Allocate(gl, o.fs2Ok);
      gl := fs2.0;
      if vs.1.None? || fs1.1.None? || fs2.1.None? {
        return false;
      }
      var p1 := Allocate(gl, o.link1Ok);
      gl := p1.0;
      var p2 := Allocate(gl, o.link2Ok);
      gl := p2.0;
      gl := Release(Release(Release(gl, vs.1), fs1.1), fs2.1);
      if p1.1.None? || p2.1.None? {
        return false;
      }
      InstallPrograms(p1.1.value, p2.1.value);
      return true;
    }

    method InstallPrograms(p1: Handle, p2: Handle)
      modifies this
      ensures State() == Install(old(State()), p1, p2)
      ensures satBuffer == old(satBuffer)
    {
      gl := Release(gl, Some(programPass1));
      gl := Release(gl, Some(programPass2));
      programPass1 := p1;
      programPass2 := p2;
      loc1 := Locations(programPass1);
      loc2 := Locations(programPass2);
    }

    method Dispose()
      modifies this
      ensures State() == old(State()).(gl := DisposeSpec(old(State()), programBlit, programBlitSat, quadBuf))
    {
      gl := Release(gl, satTex);
      gl := Release(gl, fbTex);
      gl := Release(gl, sourceTex);
      gl := Release(gl, fb);
      gl := Release(gl, Some(quadBuf));
      gl := Release(gl, Some(programPass1));
      gl := Release(gl, Some(programPass2));
      gl := Release(gl, Some(programBlit));
      gl := Release(gl, Some(programBlitSat));
    }
  }
}
