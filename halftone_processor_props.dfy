/**
 * What `HalftoneProcessor` promises, stated on the state-transition
 * functions its methods are proved against: the GPU bookkeeping of
 * `ensureSize`, `reloadShaders` and `dispose`, the SAT cache key, the
 * stage branch and the uniforms of pass 1.
 */
module ProcessorProps {
  import opened Basics
  import opened SatRgb
  import opened Processor

  // ---------------------------------------------------------------------
  // Handles
  // ---------------------------------------------------------------------

  lemma AllocateFresh(g: Gl, ok: bool)
    requires GlWf(g)
    ensures var r := Allocate(g, ok);
            && GlWf(r.0) && g.live <= r.0.live && r.0.deleted == g.deleted && r.0.next >= g.next
            && (r.1.None? <==> !ok)
            && (r.1.Some? ==> r.1.value == g.next && r.1.value !in g.live && r.0.live == g.live + {g.next})
  {
  }

  lemma ReleaseRemoves(g: Gl, h: Option<Handle>)
    requires GlWf(g)
    ensures var r := Release(g, h);
            && GlWf(r) && r.next == g.next && r.live <= g.live
            && (h.Some? ==> h.value !in r.live && r.deleted == g.deleted + [h.value])
            && (h.None? ==> r == g)
  {
  }

  /** The size-dependent objects a state holds. */
  function Sized(s: Proc): set<Handle> {
    (if s.satTex.Some? then {s.satTex.value} else {})
    + (if s.fbTex.Some? then {s.fbTex.value} else {})
    + (if s.fb.Some? then {s.fb.value} else {})
    + (if s.sourceTex.Some? then {s.sourceTex.value} else {})
  }

  /** Every object the processor holds is alive in its context. */
  predicate Tracked(s: Proc) {
    && GlWf(s.gl) && Sized(s) <= s.gl.live
    && s.programPass1 in s.gl.live && s.programPass2 in s.gl.live
    && s.programPass1 !in Sized(s) && s.programPass2 !in Sized(s)
  }

  // ---------------------------------------------------------------------
  // ensureSize
  // ---------------------------------------------------------------------

  /** `ensureSize` at the current size changes nothing, and after a completed call a repeat is a no-op. */
  lemma EnsureSizeIdempotent(s: Proc, size: nat, a: Alloc, a2: Alloc)
    ensures EnsureSizeSpec(s, s.currentSize, a) == s
    ensures var t := EnsureSizeSpec(s, size, a);
            t.currentSize == size ==> EnsureSizeSpec(t, size, a2) == t
  {
  }

  /**
   * A call at a new size resizes the canvas; it reaches the end (and sets
   * `currentSize`) exactly when `satTex`, `fbTex` and `fb` were all created,
   * and then the scratch buffer fits the new size.
   */
  lemma EnsureSizeCompletes(s: Proc, size: nat, a: Alloc)
    requires size != s.currentSize
    ensures var t := EnsureSizeSpec(s, size, a);
            && t.canvasWidth == size && t.canvasHeight == size
            && (t.currentSize == size <==> a.satTexOk && a.fbTexOk && a.fbOk)
            && (t.currentSize != size ==> t.currentSize == s.currentSize && !Ready(t))
            && (t.currentSize == size ==> t.bufferLen.Some? && t.bufferLen.value >= SatLen(size))
            && t.lastImage == s.lastImage && t.lastSize == s.lastSize
  {
  }

  /** The scratch buffer only grows, and always fits `currentSize`. */
  lemma EnsureSizeGrowOnly(s: Proc, size: nat, a: Alloc)
    ensures var t := EnsureSizeSpec(s, size, a);
            && (s.bufferLen.Some? ==> t.bufferLen.Some? && t.bufferLen.value >= s.bufferLen.value)
            && (BufferFits(s) ==> BufferFits(t))
  {
  }

  /** The first half of `ensureSize` deletes every held object and only appends to the log. */
  lemma ClearedDeletes(s: Proc, size: nat)
    requires Tracked(s)
    ensures var c := Cleared(s, size, false);
            && Tracked(c) && Sized(c) == {} && c.gl.next == s.gl.next
            && (forall h :: h in Sized(s) ==> h !in c.gl.live && h in c.gl.deleted)
            && c.gl.live <= s.gl.live
            && |s.gl.deleted| <= |c.gl.deleted| && c.gl.deleted[..|s.gl.deleted|] == s.gl.deleted
  {
    var g1 := Release(s.gl, s.satTex);
    var g2 := Release(g1, s.fbTex);
    var g3 := Release(g2, s.fb);
    ReleaseRemoves(s.gl, s.satTex);
    ReleaseRemoves(g1, s.fbTex);
    ReleaseRemoves(g2, s.fb);
    ReleaseRemoves(g3, s.sourceTex);
  }

  /** The second half of `ensureSize` only creates fresh objects, which it then holds. */
  lemma ReallocateTracks(c: Proc, size: nat, a: Alloc)
    requires Tracked(c) && Sized(c) == {}
    ensures var t := Reallocate(c, size, a);
            && Tracked(t) && c.gl.live <= t.gl.live && t.gl.deleted == c.gl.deleted
  {
    var r1 := Allocate(c.gl, a.satTexOk);
    AllocateFresh(c.gl, a.satTexOk);
    var r2 := Allocate(r1.0, a.fbTexOk);
    AllocateFresh(r1.0, a.fbTexOk);
    var r3 := Allocate(r2.0, a.fbOk);
    AllocateFresh(r2.0, a.fbOk);
    AllocateFresh(r3.0, a.sourceTexOk);
    var t := Reallocate(c, size, a);
    assert forall h :: h in Sized(t) ==> h >= c.gl.next;
  }

  /**
   * At a new size every object held before is deleted (and stays deleted)
   * whatever the allocations then do; the deletion log only grows, and
   * the objects held afterwards are alive.
   */
  lemma EnsureSizeDeletesOld(s: Proc, size: nat, a: Alloc)
    requires size != s.currentSize && Tracked(s)
    ensures var t := EnsureSizeSpec(s, size, a);
            && Tracked(t)
            && (forall h :: h in Sized(s) ==> h !in t.gl.live && h in t.gl.deleted)
            && |s.gl.deleted| <= |t.gl.deleted| && t.gl.deleted[..|s.gl.deleted|] == s.gl.deleted
  {
    var c := Cleared(s, size, false);
    ClearedDeletes(s, size);
    ReallocateTracks(c, size, a);
    var t := Reallocate(c, size, a);
    assert forall h :: h in Sized(s) ==> h < c.gl.next;
    assert forall h :: h in t.gl.live ==> h in c.gl.live || h >= c.gl.next;
  }

  /**
   * An early failure at a new size leaves `currentSize` at the old value
   * with the old objects already deleted: every later `render` whose tile
   * has the old size returns null, and `ensureSize` at that size is a no-op.
   */
  lemma EarlyFailureStalls(s: Proc, size: nat, a: Alloc, image: Image, p: ProcessorParams, stage: Stage, a2: Alloc)
    requires size != s.currentSize && !(a.satTexOk && a.fbTexOk && a.fbOk)
    ensures var t := EnsureSizeSpec(s, size, a);
            && t.currentSize == s.currentSize && !Ready(t)
            && EnsureSizeSpec(t, s.currentSize, a2) == t
            && (image.width > 0 && TileSize(image.width, image.height) == s.currentSize ==>
                  RenderSpec(t, image, p, stage, a2) == (t, None))
  {
  }

  // ---------------------------------------------------------------------
  // render
  // ---------------------------------------------------------------------

  /** `render` is null for a zero-width image, and otherwise exactly when an object is missing after `ensureSize`. */
  lemma RenderNull(s: Proc, image: Image, p: ProcessorParams, stage: Stage, a: Alloc)
    ensures image.width == 0 ==> RenderSpec(s, image, p, stage, a) == (s, None)
    ensures image.width > 0 ==>
              (RenderSpec(s, image, p, stage, a).1.None?
               <==> !Ready(EnsureSizeSpec(s, TileSize(image.width, image.height), a)))
  {
  }

  /**
   * The SAT is rebuilt and uploaded (first draw) exactly when the cache key
   * after `ensureSize` differs from (image, size); afterwards the key is
   * (image, size), whatever the stage.
   */
  lemma RenderCacheKey(s: Proc, image: Image, p: ProcessorParams, stage: Stage, a: Alloc)
    ensures var r := RenderSpec(s, image, p, stage, a);
            var size := TileSize(image.width, image.height);
            var t := EnsureSizeSpec(s, size, a);
            r.1.Some? ==>
              && r.0.lastImage == Some(image.id) && r.0.lastSize == size
              && |r.1.value| >= 1
              && (r.1.value[0].UploadSat? <==> !(t.lastImage == Some(image.id) && t.lastSize == size))
              && (r.1.value[0].UploadSat? ==> r.1.value[0] == UploadSat(t.satTex.value, size + 1))
  {
  }

  /** The numbers of the passes drawn, in order. */
  function PassesRun(ds: seq<Draw>): seq<nat> {
    if ds == [] then []
    else (if ds[0].DrawPass1? then [1] else if ds[0].DrawPass2? then [2] else []) + PassesRun(ds[1..])
  }

  lemma {:induction false} PassesRunAppend(xs: seq<Draw>, ys: seq<Draw>)
    ensures PassesRun(xs + ys) == PassesRun(xs) + PassesRun(ys)
    decreases |xs|
  {
    if xs == [] {
      assert xs + ys == ys;
    } else {
      assert (xs + ys)[0] == xs[0];
      assert (xs + ys)[1..] == xs[1..] + ys;
      PassesRunAppend(xs[1..], ys);
    }
  }

  /** The passes each stage runs: none for `source` and `sat`, pass 1 for `pass1`, both for `final`. */
  function StagePasses(stage: Stage): seq<nat> {
    match stage
    case SourceStage => []
    case SatStage => []
    case Pass1Stage => [1]
    case FinalStage => [1, 2]
  }

  lemma RenderPasses(s: Proc, image: Image, p: ProcessorParams, stage: Stage, a: Alloc)
    ensures var r := RenderSpec(s, image, p, stage, a);
            r.1.Some? ==> PassesRun(r.1.value) == StagePasses(stage)
  {
    if image.width > 0 {
      var n1Log := TileLog(image.width, image.height);
      RenderSizedPasses(EnsureSizeSpec(s, Pow2(n1Log), a), image.id, n1Log, p, stage);
    }
  }

  /** After `ensureSize`, a render that goes ahead runs exactly its stage's passes. */
  lemma RenderSizedPasses(t: Proc, id: nat, n1Log: nat, p: ProcessorParams, stage: Stage)
    ensures var r := RenderSized(t, id, n1Log, p, stage);
            r.1.Some? ==> PassesRun(r.1.value) == StagePasses(stage)
  {
    if Ready(t) {
      var c := CacheStep(t, id, Pow2(n1Log));
      var ds := StageDraws(c.0, stage, n1Log, p);
      PassesRunAppend(c.1, ds);
      assert PassesRun(c.1) == [] by {
        if c.1 != [] {
          assert c.1[1..] == [];
        }
      }
      match stage
      case SourceStage =>
        assert PassesRun(ds) == [] by { assert ds[1..] == []; }
      case SatStage =>
        assert PassesRun(ds) == [] by { assert ds[1..] == []; }
      case Pass1Stage =>
        assert ds[1..][1..] == [];
      case FinalStage =>
        assert ds[1..][1..] == [];
    }
  }

  /**
   * The uniforms of pass 1: each step is a power of two in `[1, size]`
   * dividing `size`, each area is `step * step * 255`, and each neighbour
   * radius is `(NEIGHBOR_SIZE - 1) / 2 = 2`, or 0 when its level is 0.
   */
  lemma Pass1Uniforms(t: Proc, n1Log: nat, p: ProcessorParams)
    requires Ready(t)
    ensures var u := Pass1Draw(t, n1Log, p).u1;
            var n := ClampLevel(p.n, n1Log);
            var n2 := ClampLevel(p.n2, n1Log);
            && u.size == Pow2(n1Log) && u.sizeP1 == u.size + 1
            && 1 <= u.step1 <= u.size && u.step1 * Pow2(n) == u.size
            && 1 <= u.step2 <= u.size && u.step2 * Pow2(n2) == u.size
            && u.area1 == u.step1 * u.step1 * 255 && u.area2 == u.step2 * u.step2 * 255
            && (u.radius1 == 0 <==> n == 0) && (n != 0 ==> u.radius1 == 2)
            && (u.radius2 == 0 <==> n2 == 0) && (n2 != 0 ==> u.radius2 == 2)
            && u.fieldScale == 20.0
            && Pass1Draw(t, n1Log, p).sat == t.satTex.value && Pass1Draw(t, n1Log, p).target == t.fb.value
  {
    StepDividesTile(n1Log, p.n);
    StepDividesTile(n1Log, p.n2);
  }

  // ---------------------------------------------------------------------
  // The stale SAT texture after an incomplete resize
  // ---------------------------------------------------------------------

  /** The cache key names the SAT that the GPU texture actually holds. */
  predicate SatCurrent(s: Proc) {
    s.lastImage.Some? ==> s.satTexHolds == Some((s.lastImage.value, s.lastSize))
  }

  function InitialState(): Proc {
    Proc(0, None, None, None, None, false, 300, 150, None, None, 0, None,
         0, 1, Locations(0), Locations(1), Gl({0, 1, 2, 3, 4}, [], 5))
  }

  /**
   * As written: render image 1 (2×2), then image 2 (4×4) while the source
   * texture cannot be created (`ensureSize(4)` completes, `render` returns
   * null), then image 1 again. The last call recreates `satTex` but finds
   * the cache key (1, 2) and skips the upload: pass 1 samples a texture
   * that holds no SAT.
   */
  lemma StaleSatAfterIncompleteResize(p: ProcessorParams)
    ensures var ok := Alloc(true, true, true, true, true);
            var noSource := Alloc(true, true, true, false, true);
            var r1 := RenderSpec(InitialState(), Image(1, 2, 2), p, FinalStage, ok);
            var r2 := RenderSpec(r1.0, Image(2, 4, 4), p, FinalStage, noSource);
            var r3 := RenderSpec(r2.0, Image(1, 2, 2), p, FinalStage, ok);
            && SatCurrent(r1.0) && r1.1.Some?
            && r2.1 == None
            && r3.1.Some? && r3.1.value[0].DrawPass1?
            && r3.0.satTexHolds == None && !SatCurrent(r3.0)
  {
    assert Log2Floor(2) == 1;
    assert Log2Floor(4) == 2 by { assert Log2Floor(2) == 1; }
    assert TileLog(2, 2) == 1 && Pow2(1) == 2;
    assert TileLog(4, 4) == 2 && Pow2(2) == 4;
    var ok := Alloc(true, true, true, true, true);
    var r1 := RenderSpec(InitialState(), Image(1, 2, 2), p, FinalStage, ok);
    FirstRender(InitialState(), p);
    var r2 := RenderSpec(r1.0, Image(2, 4, 4), p, FinalStage, Alloc(true, true, true, false, true));
    ResizeWithoutSource(r1.0, p);
    StaleRender(r2.0, p);
  }

  /** Image 1 at 2×2 from a processor at another size, with every allocation succeeding: the SAT is uploaded and current. */
  lemma FirstRender(s: Proc, p: ProcessorParams)
    requires s.currentSize != 2 && s.lastImage.None? && TileLog(2, 2) == 1 && Pow2(1) == 2
    ensures var r := RenderSpec(s, Image(1, 2, 2), p, FinalStage, Alloc(true, true, true, true, true));
            && r.1.Some? && r.0.currentSize == 2
            && r.0.lastImage == Some(1) && r.0.lastSize == 2 && r.0.satTexHolds == Some((1, 2))
  {
    var t := EnsureSizeWith(s, 2, Alloc(true, true, true, true, true), false);
    assert Ready(t);
  }

  /** Image 2 at 4×4 from size 2 while the source texture fails: the objects are recreated, `render` returns null, the key stays. */
  lemma ResizeWithoutSource(s: Proc, p: ProcessorParams)
    requires s.currentSize == 2 && TileLog(4, 4) == 2 && Pow2(2) == 4
    ensures var r := RenderSpec(s, Image(2, 4, 4), p, FinalStage, Alloc(true, true, true, false, true));
            && r.1 == None && r.0.currentSize == 4
            && r.0.lastImage == s.lastImage && r.0.lastSize == s.lastSize
  {
    var t := EnsureSizeWith(s, 4, Alloc(true, true, true, false, true), false);
    assert !Ready(t) && t.currentSize == 4;
  }

  /** Image 1 at 2×2 again from size 4 with the old key (1, 2): `satTex` is new, but the upload is skipped. */
  lemma StaleRender(s: Proc, p: ProcessorParams)
    requires s.currentSize == 4 && s.lastImage == Some(1) && s.lastSize == 2 && TileLog(2, 2) == 1 && Pow2(1) == 2
    ensures var r := RenderSpec(s, Image(1, 2, 2), p, FinalStage, Alloc(true, true, true, true, true));
            && r.1.Some? && r.1.value[0].DrawPass1?
            && r.0.satTexHolds == None && !SatCurrent(r.0)
  {
    var t := EnsureSizeWith(s, 2, Alloc(true, true, true, true, true), false);
    assert Ready(t) && t.satTexHolds == None && t.lastImage == Some(1) && t.lastSize == 2;
  }

  /** The intended `render`: `ensureSize` also forgets the cache key whenever it recreates `satTex`. */
  function RenderSpecFixed(s: Proc, image: Image, p: ProcessorParams, stage: Stage, a: Alloc): (Proc, Option<seq<Draw>>) {
    RenderWith(s, image, p, stage, a, true)
  }

  /** With the fix, every successful render draws from a texture holding this image's SAT at this size. */
  lemma RenderFixedUsesCurrentSat(s: Proc, image: Image, p: ProcessorParams, stage: Stage, a: Alloc)
    requires SatCurrent(s)
    ensures var r := RenderSpecFixed(s, image, p, stage, a);
            && SatCurrent(r.0)
            && (r.1.Some? ==> r.0.satTexHolds == Some((image.id, TileSize(image.width, image.height))))
  {
    if image.width > 0 {
      var n1Log := TileLog(image.width, image.height);
      var t := EnsureSizeWith(s, Pow2(n1Log), a, true);
      EnsureInvalidatingKeepsSatCurrent(s, Pow2(n1Log), a);
      RenderSizedSatCurrent(t, image.id, n1Log, p, stage);
    }
  }

  /** The corrected `ensureSize` keeps the cache key truthful: recreating `satTex` forgets the key. */
  lemma EnsureInvalidatingKeepsSatCurrent(s: Proc, size: nat, a: Alloc)
    requires SatCurrent(s)
    ensures SatCurrent(EnsureSizeWith(s, size, a, true))
  {
    if size != s.currentSize {
      var c := Cleared(s, size, true);
      assert c.lastImage.None?;
      var t := AllocTargets(c, a);
      assert t.lastImage.None?;
    }
  }

  /** From a truthful cache key, the rest of `render` keeps it truthful, and a render that goes ahead draws from this SAT. */
  lemma RenderSizedSatCurrent(t: Proc, id: nat, n1Log: nat, p: ProcessorParams, stage: Stage)
    requires SatCurrent(t)
    ensures var r := RenderSized(t, id, n1Log, p, stage);
            && SatCurrent(r.0)
            && (r.1.Some? ==> r.0.satTexHolds == Some((id, Pow2(n1Log))))
  {
  }

  // ---------------------------------------------------------------------
  // reloadShaders
  // ---------------------------------------------------------------------

  /**
   * `reloadShaders` succeeds exactly when all three compiles and both links
   * do; on failure the programs and locations are untouched; on success the
   * old pair is deleted and the new, live pair is installed with locations
   * looked up in it.
   */
  lemma ReloadOutcome(s: Proc, o: ShaderOutcome)
    requires Tracked(s) && s.programPass1 != s.programPass2
    ensures var r := ReloadSpec(s, o);
            && (r.1 <==> o.vsOk && o.fs1Ok && o.fs2Ok && o.link1Ok && o.link2Ok)
            && (!r.1 ==> r.0 == s.(gl := r.0.gl))
            && (r.1 ==>
                  && r.0.programPass1 in r.0.gl.live && r.0.programPass2 in r.0.gl.live
                  && r.0.programPass1 != r.0.programPass2
                  && s.programPass1 !in r.0.gl.live && s.programPass2 !in r.0.gl.live
                  && r.0.loc1 == Locations(r.0.programPass1) && r.0.loc2 == Locations(r.0.programPass2)
                  && r.0 == s.(gl := r.0.gl, programPass1 := r.0.programPass1, programPass2 := r.0.programPass2,
                               loc1 := r.0.loc1, loc2 := r.0.loc2))
  {
    var c := CompileAll(s.gl, o);
    if c.1.Some? && c.2.Some? && c.3.Some? {
      var l := LinkAll(c.0, o, c.1.value, c.2.value, c.3.value);
      if l.1.Some? && l.2.Some? {
        assert s.programPass1 < s.gl.next && s.programPass2 < s.gl.next;
        assert l.1.value >= s.gl.next && l.2.value >= s.gl.next;
      }
    }
  }

  /**
   * As written: when the second fragment shader fails to compile, the two
   * shaders that did compile are never deleted, and when only the second
   * link fails, the first linked program is never deleted.
   */
  lemma ReloadLeaks(s: Proc)
    requires GlWf(s.gl)
    ensures ReloadSpec(s, ShaderOutcome(true, true, false, true, true)).0.gl.live
              == s.gl.live + {s.gl.next, s.gl.next + 1}
    ensures ReloadSpec(s, ShaderOutcome(true, true, true, true, false)).0.gl.live
              == s.gl.live + {s.gl.next + 3}
  {
  }

  /** The intended `reloadShaders`: whatever a failed attempt created is deleted again. */
  function ReloadSpecNoLeak(s: Proc, o: ShaderOutcome): (Proc, bool) {
    var c := CompileAll(s.gl, o);
    if c.1.None? || c.2.None? || c.3.None? then (s.(gl := Release(Release(Release(c.0, c.1), c.2), c.3)), false)
    else
      var l := LinkAll(c.0, o, c.1.value, c.2.value, c.3.value);
      if l.1.None? || l.2.None? then (s.(gl := Release(Release(l.0, l.1), l.2)), false)
      else (Install(s.(gl := l.0), l.1.value, l.2.value), true)
  }

  /** With the fix a failed reload leaves the set of live objects exactly as it was; a successful one is unchanged. */
  lemma ReloadNoLeak(s: Proc, o: ShaderOutcome)
    requires GlWf(s.gl)
    ensures var r := ReloadSpecNoLeak(s, o);
            && r.1 == ReloadSpec(s, o).1
            && (!r.1 ==> r.0.gl.live == s.gl.live && r.0 == s.(gl := r.0.gl))
            && (r.1 ==> r == ReloadSpec(s, o))
  {
    var n := s.gl.next;
    var c := CompileAll(s.gl, o);
    if c.1.None? || c.2.None? || c.3.None? {
      assert c.0.live == s.gl.live + (if c.1.Some? then {n} else {}) + (if c.2.Some? then {c.2.value} else {})
                         + (if c.3.Some? then {c.3.value} else {});
    } else {
      var l := LinkAll(c.0, o, c.1.value, c.2.value, c.3.value);
      assert c.0.live == s.gl.live + {n, n + 1, n + 2};
      if l.1.None? || l.2.None? {
        assert l.0.live == s.gl.live + (if l.1.Some? then {n + 3} else {}) + (if l.2.Some? then {l.2.value} else {});
      }
    }
  }

  // ---------------------------------------------------------------------
  // dispose
  // ---------------------------------------------------------------------

  function OptSeq(h: Option<Handle>): seq<Handle> {
    if h.Some? then [h.value] else []
  }

  /** `dispose` deletes, in this order, the present size-dependent objects, the quad buffer and the four programs; none of them is alive afterwards. */
  lemma DisposeReleasesAll(s: Proc, programBlit: Handle, programBlitSat: Handle, quadBuf: Handle)
    ensures var g := DisposeSpec(s, programBlit, programBlitSat, quadBuf);
            && g.deleted == s.gl.deleted + OptSeq(s.satTex) + OptSeq(s.fbTex) + OptSeq(s.sourceTex) + OptSeq(s.fb)
                            + [quadBuf, s.programPass1, s.programPass2, programBlit, programBlitSat]
            && g.live == s.gl.live - Sized(s) - {quadBuf, s.programPass1, s.programPass2, programBlit, programBlitSat}
  {
  }
}
