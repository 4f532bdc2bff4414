# Halftone shader editor: a verified model of its core

This project models, in Dafny, the logic at the core of a browser-based
halftone shader editor. It covers:

- **SAT**: the CPU summed-area table (`buildSatRgbInto`) and the `#rrggbb` colour
  parser (`hexToRgb`).
- **Halftone processor**: the bookkeeping side of `HalftoneProcessor`:
  - the tile and step arithmetic of `render`;
  - the lazily reallocated size-dependent GPU objects (`ensureSize`);
  - the memoised SAT upload and the four-way stage branch;
  - shader hot-reload and `dispose`.
  GPU objects are opaque handles. Allocation, compilation and linking
  outcomes are inputs.
- **Halftone pane**: the projection of its parameter record onto the
  processor's, the `blendToOffset2` curve, the defaults, and the `ani`
  animation (`applyAni`, the triangle wave of `tick`).
- **Parameter store**: a record with per-key subscribers, "any key was set"
  listeners, and a changed-keys set. Writing `blendValue` recomputes
  `offset2`.
- **Timeline**: keyframe tracks and interpolation (`sampleTrack`), value
  equality, time clamping and snapping, frame stepping, track add/remove/update,
  state loading, and playback wrap-around. Also the timeline presets store:
  its load filter, save, rename, import merge, and current-preset selection.
- **Debug node card**: the channel mask and the range remap it applies to a
  pixel buffer in place, the alpha-mode cycle, and `clamp255`.
- **Shader debug page**: the boolean per-stage channel mask, the channel
  toggle, and frame coalescing in `scheduleRender`.
- **Shader effect framework**:
  - uniforms that mark themselves dirty and write through to their effect;
  - the effect's merge-`setState` with listeners;
  - the once-only `_bindUniforms`;
  - the per-key texture cache that uploads only dirty images;
  - `unmount`.
- **Debug controls**: the slider's typed-value clamp, the colour input's
  `#`-prefixing and six-hex-digit check, and the store-bound `onChange`.

Each source file with state becomes a class whose methods are proved against
pure specification functions. Pure code becomes functions and lemmas.
Callbacks are identifiers, and their invocations are recorded in order.

Two behaviours the model keeps exactly as the code has them:

- `ensureSize` does not reset the SAT cache key (see Findings).
- The debug page's alpha mask makes pixels transparent, whereas the node
  card's makes them opaque (`ShaderDebug.AlphaHiddenDiffersFromCard`).

Files, one module each:

| file | module | source |
|---|---|---|
| `basics.dfy` | `Basics` | shared: `Option`, `Value`, bytes, hex digits, `Math.round`, `parseInt(s, 16)` |
| `sat_rgb.dfy` | `SatRgb` | `src/Halftone/satRgb.ts` |
| `halftone_processor.dfy`, `halftone_processor_props.dfy` | `Processor`, `ProcessorProps` | `src/Halftone/halftoneProcessor.ts` |
| `halftone_pane.dfy` | `Pane` | `src/Halftone/halftonePane.ts` |
| `param_store.dfy` | `ParamStore` | `src/debug-ui/paramStore.ts` |
| `timeline.dfy` | `Timeline` | `src/debug-ui/timeline.ts` |
| `timeline_presets.dfy` | `Presets` | `src/debug-ui/timelinePresets.ts` |
| `debug_node_card.dfy` | `DebugCard` | `src/debug-ui/DebugNodeCard.ts` |
| `shader_debug.dfy` | `ShaderDebug` | `src/pages/shader-debug.ts` |
| `shader_effect.dfy` | `ShaderEffect` | `src/lib/core/effectUniforms.ts`, `src/lib/core/BaseShaderEffect.ts` |
| `controls.dfy` | `Controls` | `src/debug-ui/controls.ts` |

## Model

| member | source | states |
|---|---|---|
| Basics.RoundHalfUp | src/debug-ui/DebugNodeCard.ts:80 | `Math.round`: the result is within one half of x, rounding halves up |
| Basics.ByteToHex2 | src/debug-ui/timeline.ts:73 | the two lower-case hex digits of a byte; their value is the byte |
| Basics.TrimStartParts | src/debug-ui/timelinePresets.ts:131-132 | `trimStart` drops a prefix made only of white space, and what is left does not start with white space |
| Basics.TrimEnd | src/debug-ui/timelinePresets.ts:131-132 | `trimEnd` keeps a prefix of its input, and what is left does not end with white space |
| Basics.TrimEndParts | src/debug-ui/timelinePresets.ts:131-132 | the part `trimEnd` drops is all white space |
| Basics.Trim | src/debug-ui/timelinePresets.ts:131-132 | `trim` never lengthens a string, and what it returns neither starts nor ends with white space |
| Basics.TrimParts | src/debug-ui/timelinePresets.ts:131-132 | the input is white space, then the trimmed string, then white space |
| Basics.HexDigitPrefixAll | src/Halftone/satRgb.ts:7-9 | `parseInt` reads the whole of a string made only of hex digits |
| Basics.ParseIntHex | src/Halftone/satRgb.ts:7-9 | `parseInt(s, 16)`: leading white space, an optional sign and `0x`, then the longest run of hex digits; NaN without a digit (its properties are `ParseIntHexBlank`, `ParseIntHexDigits` and `ParseTwoHexDigits`) |
| Basics.ParseIntHexBlank | src/Halftone/satRgb.ts:7-9 | a string of white space only, the empty string included, parses to NaN |
| Basics.ParseIntHexDigits | src/Halftone/satRgb.ts:7-9 | a non-empty string of hex digits parses to its value |
| Basics.ParseTwoHexDigits | src/Halftone/satRgb.ts:7-9 | `parseInt` of two hex digits is their value, at most 255 |
| SatRgb.BuildSatRgbInto | src/Halftone/satRgb.ts:18-59 | after the call, out is the summed-area table of the pixels: R, G, B of cell (j, i) are the channel sums over rows < j and columns < i, every alpha slot is 0, and everything past (size+1)²·4 is 0 |
| SatRgb.HorizontalPass | src/Halftone/satRgb.ts:25-43 | the scratch buffer holds each row's running R, G, B sums, shifted one column, with zero padding |
| SatRgb.VerticalPass | src/Halftone/satRgb.ts:45-59 | out(j, i) = out(j-1, i) + temp(j, i) for every row; the buffer's tail stays 0 |
| SatRgb.HorizontalRow | src/Halftone/satRgb.ts:26-42 | one row of pass 1 writes that row's running sums and leaves every later row untouched |
| SatRgb.VerticalRow | src/Halftone/satRgb.ts:46-58 | one row of pass 2 adds the scratch row to the previous table row |
| SatRgb.WriteRgb | src/Halftone/satRgb.ts:38-41 | one cell gets r, g, b and alpha 0; no other entry changes |
| SatRgb.OutAtIdx | src/Halftone/satRgb.ts:51-57 | the table entry for (j, i, c) is the channel sum for c < 3 and 0 for alpha |
| SatRgb.FirstRowZero | src/Halftone/satRgb.ts:21-23 | row 0 of both buffers is 0 |
| SatRgb.TempRowStep | src/Halftone/satRgb.ts:33-38 | each scratch entry is the previous one plus the next source pixel |
| SatRgb.OutRowStep | src/Halftone/satRgb.ts:51-57 | each table row is the previous row plus the scratch row |
| SatRgb.SatRectangle | src/Halftone/satRgb.ts:13-17 | four-point inclusion–exclusion on the table gives the exact channel sum of any axis-aligned rectangle |
| SatRgb.TableRectangle | src/Halftone/satRgb.ts:13-17 | the same inclusion–exclusion, read off any buffer the builder filled |
| SatRgb.TableBorders | src/Halftone/satRgb.ts:45-59 | a filled table is 0 on row 0, column 0 and every alpha slot |
| SatRgb.SatMonotone | src/Halftone/satRgb.ts:54-56 | every channel is non-decreasing down a column and along a row |
| SatRgb.SatColumnZero | src/Halftone/satRgb.ts:50-54 | column 0 of the table is 0 |
| SatRgb.RectNonNegative | src/Halftone/satRgb.ts:34-36 | the channel sum of any rectangle is non-negative |
| SatRgb.HexComponent | src/Halftone/satRgb.ts:7-9 | a component is defined only when `parseInt` of its pair succeeds |
| SatRgb.RgbToHex | src/debug-ui/timeline.ts:73 | three bytes print as a valid `#rrggbb` |
| SatRgb.HexToRgbStripsHash | src/Halftone/satRgb.ts:6 | with a leading `#`, the pairs after it are read |
| SatRgb.HexToRgbHashOptional | src/Halftone/satRgb.ts:6 | only one `#` is stripped, so `#h` and `h` parse alike |
| SatRgb.ValidComponent | src/Halftone/satRgb.ts:7-9 | each pair of a valid colour is hex, and its component is value/255, in [0, 1] |
| SatRgb.HexToRgbRoundTrip | src/Halftone/satRgb.ts:5-11 | `hexToRgb` inverts the printing of three bytes: each component is byte/255 |
| SatRgb.HexToRgbValid | src/Halftone/satRgb.ts:5-11 | for any valid `#RRGGBB`, the components are the three pair values over 255, each in [0, 1] |
| SatRgb.HexToRgb | src/Halftone/satRgb.ts:5-11 | `hexToRgb` of the empty string or a lone `#` gives three NaN components (valid colours: `HexToRgbValid`, `HexToRgbRoundTrip`) |
| Processor.Log2Floor | src/Halftone/halftoneProcessor.ts:328 | `floor(log2 m)`: 2^k <= m < 2^(k+1) |
| Processor.TileLog | src/Halftone/halftoneProcessor.ts:327-328 | `n1Log` is at least 1, also when the shorter side is 0 |
| Processor.ClampLevel | src/Halftone/halftoneProcessor.ts:330-331 | the level lies in [0, n1Log]: kept when inside, else the nearer end |
| Processor.TileSizeBounds | src/Halftone/halftoneProcessor.ts:327-329 | the tile is a power of two, at least 2, and the largest one fitting the shorter side |
| Processor.StepDividesTile | src/Halftone/halftoneProcessor.ts:330-333 | each step is a power of two in [1, size] and times 2^n gives size |
| Processor.Pow2Add | src/Halftone/halftoneProcessor.ts:332-333 | 2^(a+b) = 2^a · 2^b |
| Processor.ReadyAtSize | src/Halftone/halftoneProcessor.ts:335-336 | after `ensureSize`, all objects are present only if the processor is at the requested size |
| Processor.HalftoneProcessor.constructor | src/Halftone/halftoneProcessor.ts:89-113 | a new processor holds no size-dependent objects, has size 0 and no cache key |
| Processor.HalftoneProcessor.EnsureSize | src/Halftone/halftoneProcessor.ts:217-276 | the new state is `EnsureSizeSpec` of the old: no-op at the same size; otherwise delete and null every object, then allocate in order, giving up early |
| Processor.HalftoneProcessor.ReleaseSized | src/Halftone/halftoneProcessor.ts:221-233 | the first half of a resize: the state becomes `Cleared` (every size-dependent object deleted, the SAT texture holding nothing, the canvas at the new size) and the scratch buffer is kept |
| Processor.HalftoneProcessor.DeleteSizedObjects | src/Halftone/halftoneProcessor.ts:221-228 | each present object is deleted, in order, and its field nulled |
| Processor.HalftoneProcessor.AllocateSized | src/Halftone/halftoneProcessor.ts:236-276 | the allocation half of `ensureSize`, as `Reallocate` |
| Processor.HalftoneProcessor.AllocateTargets | src/Halftone/halftoneProcessor.ts:236-246 | `satTex`, then `fbTex` and `fb`, are created |
| Processor.HalftoneProcessor.FinishSizedObjects | src/Halftone/halftoneProcessor.ts:247-275 | the source texture, crop context and scratch buffer are created, and the size is recorded |
| Processor.HalftoneProcessor.Render | src/Halftone/halftoneProcessor.ts:320-431 | state and draws are `RenderSpec`; an uploaded SAT is the summed-area table of the crop |
| Processor.HalftoneProcessor.RenderAtSize | src/Halftone/halftoneProcessor.ts:336-431 | the resource check, the SAT cache check and the stage branch |
| Processor.HalftoneProcessor.RefreshSat | src/Halftone/halftoneProcessor.ts:342-354 | on a cache miss, the buffer is rebuilt as the crop's SAT and uploaded, and the key set to (image, size) |
| Processor.HalftoneProcessor.StageCommands | src/Halftone/halftoneProcessor.ts:356-431 | the draws are exactly the stage's branch |
| Processor.HalftoneProcessor.ReloadShaders | src/Halftone/halftoneProcessor.ts:435-463 | the new state and flag are `ReloadSpec` of the old |
| Processor.HalftoneProcessor.InstallPrograms | src/Halftone/halftoneProcessor.ts:452-461 | the old pair is deleted and the new pair installed, with fresh locations |
| Processor.HalftoneProcessor.Dispose | src/Halftone/halftoneProcessor.ts:465-477 | the deletions follow `DisposeSpec`, in source order |
| ProcessorProps.AllocateFresh | src/Halftone/halftoneProcessor.ts:236-246 | a successful allocation is fresh and alive; a failed one changes nothing |
| ProcessorProps.ReleaseRemoves | src/Halftone/halftoneProcessor.ts:221-228 | deleting a present object logs it and removes it from the live set |
| ProcessorProps.EnsureSizeIdempotent | src/Halftone/halftoneProcessor.ts:217-218 | at the current size nothing changes; after a completed call, a repeat is a no-op |
| ProcessorProps.EnsureSizeCompletes | src/Halftone/halftoneProcessor.ts:229-276 | a new size resizes the canvas; `currentSize` is set iff `satTex`, `fbTex` and `fb` were created, and then the buffer fits |
| ProcessorProps.EnsureSizeGrowOnly | src/Halftone/halftoneProcessor.ts:273-274 | the scratch buffer only grows and always fits `currentSize` |
| ProcessorProps.ClearedDeletes | src/Halftone/halftoneProcessor.ts:221-230 | the first half deletes every held object and only appends to the log |
| ProcessorProps.ReallocateTracks | src/Halftone/halftoneProcessor.ts:236-276 | the second half only creates fresh objects, and then holds them |
| ProcessorProps.EnsureSizeDeletesOld | src/Halftone/halftoneProcessor.ts:217-276 | at a new size, every object held before is deleted and stays deleted; the objects held afterwards are alive |
| ProcessorProps.EarlyFailureStalls | src/Halftone/halftoneProcessor.ts:237-246 | after an early failure, renders at the old size return null and `ensureSize` at that size is a no-op |
| ProcessorProps.RenderNull | src/Halftone/halftoneProcessor.ts:325-336 | `render` returns null for a zero-width image, and otherwise exactly when an object is missing |
| ProcessorProps.RenderCacheKey | src/Halftone/halftoneProcessor.ts:342-354 | the SAT is rebuilt and uploaded iff the key differs from (image, size); afterwards the key is (image, size) |
| ProcessorProps.PassesRunAppend | src/Halftone/halftoneProcessor.ts:356-431 | the pass numbers of a draw list distribute over concatenation |
| ProcessorProps.RenderPasses | src/Halftone/halftoneProcessor.ts:356-431 | `source` and `sat` run no pass, `pass1` runs pass 1, `final` runs both in order |
| ProcessorProps.Pass1Uniforms | src/Halftone/halftoneProcessor.ts:366-406 | the pass-1 steps are powers of two dividing the tile; areas are step²·255; radii are 2, or 0 at level 0 |
| ProcessorProps.StaleSatAfterIncompleteResize | src/Halftone/halftoneProcessor.ts:342-354 | as written: after an incomplete resize, pass 1 reads a `satTex` that holds no SAT (Findings) |
| ProcessorProps.RenderFixedUsesCurrentSat | src/Halftone/halftoneProcessor.ts:342-354 | with the key reset on reallocation, every successful render draws from this image's SAT at this size |
| ProcessorProps.ReloadOutcome | src/Halftone/halftoneProcessor.ts:435-463 | success iff all compiles and links succeed; failure leaves programs untouched; success installs a live pair |
| ProcessorProps.ReloadLeaks | src/Halftone/halftoneProcessor.ts:438-449 | as written: a failed compile or a failed second link leaves shaders or a program alive (Findings) |
| ProcessorProps.ReloadNoLeak | src/Halftone/halftoneProcessor.ts:438-449 | the corrected reload leaves the live set as it was on failure, and matches the original on success |
| ProcessorProps.DisposeReleasesAll | src/Halftone/halftoneProcessor.ts:465-477 | `dispose` deletes every present object, the quad buffer and the four programs, in order; none stays alive |
| Pane.ProjectionRoundTrip | src/Halftone/halftonePane.ts:19-38 | `toProcessorParams` copies the 17 processor fields; adding back the pane-only fields restores the record |
| Pane.ProjectionIgnoresPaneFields | src/Halftone/halftonePane.ts:19-38 | the pane-only fields do not affect what the processor sees |
| Pane.ToProcessorParams | src/Halftone/halftonePane.ts:19-38 | the projection loses only the four pane-only fields: putting them back gives the pane record |
| Pane.WithPaneFields | src/Halftone/halftonePane.ts:19-38 | the inverse of the projection, given the pane-only fields (proved in `ProjectionRoundTrip`) |
| Pane.BlendToOffset2 | src/Halftone/halftonePane.ts:42-47 | on [0, 1], with `timeValue` outside (0, 1) the curve stays between `peak` and 1; inside, the rising piece stays between 0 and `peak` and the falling piece between `peak` and 1 |
| Pane.BlendDescendingLine | src/Halftone/halftonePane.ts:43 | with `timeValue <= 0`, the curve goes from `peak` at 0 to 1 at 1 |
| Pane.BlendAscendingLine | src/Halftone/halftonePane.ts:44 | with `timeValue >= 1`, the curve goes from 1 at 0 to `peak` at 1 |
| Pane.BlendPeakAtTimeValue | src/Halftone/halftonePane.ts:45-46 | inside (0, 1): 0 at 0, `peak` at `timeValue`, 1 at 1 |
| Pane.BlendMeetsAtTimeValue | src/Halftone/halftonePane.ts:45-46 | inside (0, 1) the two pieces meet at `timeValue` without a jump: the distance from `peak` is proportional to the distance from `timeValue` on each side |
| Pane.DefaultsWithoutOverrides | src/Halftone/halftonePane.ts:316-338 | without overrides, every field takes its documented default |
| Pane.OverridesTakePrecedence | src/Halftone/halftonePane.ts:316-338 | overriding every field gives exactly the overriding record |
| Pane.SingleOverride | src/Halftone/halftonePane.ts:316-338 | one override changes only its own field |
| Pane.AniApplied | src/Halftone/halftonePane.ts:87-99 | `applyAni` splits e = min(v, aniMax) into level n = floor(e) and blend in [0, 1); n2 is at most n+1 and within floor(aniMax); only six fields change |
| Pane.AniInRange | src/Halftone/halftonePane.ts:87-99 | on [0, aniMax], the blend is in [0, 1] and the contrast in [-100, 100] |
| Pane.RemainderBounds | src/Halftone/halftonePane.ts:144 | JavaScript `%` with a non-negative dividend and positive divisor lies in [0, divisor) |
| Pane.PhaseRange | src/Halftone/halftonePane.ts:144 | the phase `t` lies in [0, 2) |
| Pane.TriangleWave | src/Halftone/halftonePane.ts:141-145 | from a non-negative elapsed time and a positive cycle, the animated value stays in [0, max] |
| Pane.TriangleWavePeriodic | src/Halftone/halftonePane.ts:144-145 | the wave repeats every two cycle times |
| Pane.TriangleWaveEnds | src/Halftone/halftonePane.ts:144-145 | the wave is 0 at the start and `max` after one cycle time |
| Pane.AniPane.constructor | src/Halftone/halftonePane.ts:101-103 | `ani` starts at 4, and the cycle time defaults to 4 s |
| Pane.AniPane.ApplyAni | src/Halftone/halftonePane.ts:87-99 | the parameters become `AniApplied`, and the blend display shows the blend |
| Pane.AniPane.OnAniChange | src/Halftone/halftonePane.ts:125-130 | applies the new value and stores it as `ani` |
| Pane.AniPane.OnAniMaxChange | src/Halftone/halftonePane.ts:104-113 | the binding writes the new maximum into the parameters, then the current `ani` is re-applied under it |
| Pane.AniPane.StartAnimation | src/Halftone/halftonePane.ts:133-153 | a second start while running changes nothing; otherwise it records the start time |
| Pane.AniPane.TogglePlay | src/Halftone/halftonePane.ts:154-165 | the play button flips between running and stopped |
| Pane.AniPane.Tick | src/Halftone/halftonePane.ts:139-150 | a frame while running applies the triangle-wave value and stores it as `ani`; when stopped, nothing changes |
| Pane.TickStaysInRange | src/Halftone/halftonePane.ts:139-150 | every frame keeps `ani` in [0, aniMax] and the blend in [0, 1] |
| ParamStore.ValueEvents | src/debug-ui/paramStore.ts:54-57 | every subscriber in the list, in order, receives the value for the key |
| ParamStore.KeyEvents | src/debug-ui/paramStore.ts:48-51 | every set-listener, in order, hears the key |
| ParamStore.KeysEvents | src/debug-ui/paramStore.ts:80 | every changed-keys listener, in order, receives the set |
| ParamStore.CallSubscribers | src/debug-ui/paramStore.ts:56 | the loop makes exactly the `ValueEvents` calls |
| ParamStore.CallSetListeners | src/debug-ui/paramStore.ts:51 | the loop makes exactly the `KeyEvents` calls |
| ParamStore.CallChangedListeners | src/debug-ui/paramStore.ts:80 | the loop makes exactly the `KeysEvents` calls |
| ParamStore.Without | src/debug-ui/paramStore.ts:67 | `filter(f => f !== fn)`: fn is gone, every other listener stays, and nothing new appears |
| ParamStore.WithoutAbsent | src/debug-ui/paramStore.ts:67 | removing an absent listener leaves the list as it is |
| ParamStore.WithoutAppend | src/debug-ui/paramStore.ts:67 | filtering distributes over concatenation, so the order is kept |
| ParamStore.ParamsToMap | src/debug-ui/paramStore.ts:25 | the store's copy holds every field of the initial record; `cycleTimeSec` only when given |
| ParamStore.Store.constructor | src/debug-ui/paramStore.ts:22-29 | the store starts from the initial record, with no subscribers and no changed keys |
| ParamStore.Store.Get | src/debug-ui/paramStore.ts:35-37 | `get(key)` is the stored value, or undefined for a missing key |
| ParamStore.Store.Set | src/debug-ui/paramStore.ts:39-52 | the record becomes `Written`; the callbacks are `SetCallbacks` in source order; listener lists are unchanged |
| ParamStore.Store.NotifyKey | src/debug-ui/paramStore.ts:54-57 | the key's subscribers are called in order; none when the key has no list |
| ParamStore.Store.Subscribe | src/debug-ui/paramStore.ts:59-65 | appends to the key's list, creating it when missing |
| ParamStore.Store.Unsubscribe | src/debug-ui/paramStore.ts:66-68 | drops the listener from that key's list only |
| ParamStore.Store.SubscribeToSet | src/debug-ui/paramStore.ts:71-72 | appends a set-listener |
| ParamStore.Store.UnsubscribeFromSet | src/debug-ui/paramStore.ts:73-75 | removes that set-listener |
| ParamStore.Store.SetChangedKeys | src/debug-ui/paramStore.ts:78-85 | stores the set, so that `getChangedKeys` returns it, and hands it to every changed-keys listener, in order |
| ParamStore.Store.SubscribeChangedKeys | src/debug-ui/paramStore.ts:87-89 | registers the listener, then calls it once with the current set |
| ParamStore.Store.UnsubscribeChangedKeys | src/debug-ui/paramStore.ts:90-92 | removes that changed-keys listener |
| ParamStore.Written | src/debug-ui/paramStore.ts:39-46 | the record after `set(key, value)`: the key holds the value; the keys are the old ones plus the key, and `offset2` on a blend write; every other key keeps its value |
| ParamStore.SetThenGet | src/debug-ui/paramStore.ts:39-46 | after `set(k, v)`, `get(k)` is v, and every other key keeps its value except `offset2` on a blend write |
| ParamStore.BlendCouplesOffset2 | src/debug-ui/paramStore.ts:41-46 | a `blendValue` write sets `offset2` to the curve value; other writes leave it |
| ParamStore.ValueEventsAbout | src/debug-ui/paramStore.ts:54-57 | every event of a per-key broadcast carries that key and value |
| ParamStore.KeyEventsAbout | src/debug-ui/paramStore.ts:51 | every set-listener event carries that key |
| ParamStore.BlendNotifiesOffset2First | src/debug-ui/paramStore.ts:41-51 | on a blend write, all `offset2` callbacks come before the `blendValue` ones, with the recomputed and written values |
| ParamStore.OtherKeyNotifiesOnlyItself | src/debug-ui/paramStore.ts:50-51 | any other key is heard by its own subscribers, then by the set-listeners, and by no one else |
| ParamStore.SubscribeUnsubscribeRoundTrip | src/debug-ui/paramStore.ts:59-68 | subscribing and then calling the returned function restores the key's list; other keys are untouched |
| ParamStore.UnsubscribeKeepsOthers | src/debug-ui/paramStore.ts:66-68 | unsubscribing drops only that listener and keeps the order of the rest |
| Timeline.InsertPos | src/debug-ui/timeline.ts:346 | the insertion point is within the list |
| Timeline.Insert | src/debug-ui/timeline.ts:346 | inserting one keyframe lengthens the list by one |
| Timeline.InsertAtPos | src/debug-ui/timeline.ts:346 | in a time-sorted list the new keyframe lands after every keyframe not later than it and before every later one, the rest in order |
| Timeline.InsertMultiset | src/debug-ui/timeline.ts:346 | insertion adds exactly that keyframe and loses none |
| Timeline.InsertSorted | src/debug-ui/timeline.ts:346 | insertion keeps a list sorted by time |
| Timeline.SortByTime | src/debug-ui/timeline.ts:46 | the sorted copy has the original's length |
| Timeline.SortByTimeSorted | src/debug-ui/timeline.ts:46 | the stable sort by time is sorted and a permutation of its input |
| Timeline.SortByTimeOfSorted | src/debug-ui/timeline.ts:46 | sorting an already sorted list keeps it as it is, equal times included (stability) |
| Timeline.AddKeyframeOrder | src/debug-ui/timeline.ts:339-347 | a keyframe appended to a sorted track and re-sorted goes after all keyframes at its time or earlier and before all later ones |
| Timeline.ChannelIsParseInt | src/debug-ui/timeline.ts:63-67 | `parseInt` of two hex digits of a `#rrggbb` colour is that channel's byte |
| Timeline.MixChannel | src/debug-ui/timeline.ts:70-72 | a rounded channel mix lies between the two channels |
| Timeline.Mix | src/debug-ui/timeline.ts:55-77 | the mixed value is of the first value's kind; except for two numbers or two colours it is one of the two ends |
| Timeline.Interpolate | src/debug-ui/timeline.ts:53-77 | a sampled value inside a segment is of the first keyframe's kind, and a boolean is one of the two keyframes' values |
| Timeline.Frac | src/debug-ui/timeline.ts:54 | inside a segment the fraction lies in [0, 1) |
| Timeline.MixNumbersBetween | src/debug-ui/timeline.ts:55-57 | numbers interpolate linearly: the result lies between the ends and is the first at fraction 0 |
| Timeline.MixBooleansSwitch | src/debug-ui/timeline.ts:58-60 | booleans take the first value below half-way and the second from there on |
| Timeline.MixHexChannels | src/debug-ui/timeline.ts:61-74 | two colours mix into a lower-case `#rrggbb` whose channels each lie between the ends' channels, equal to the first at fraction 0 |
| Timeline.MixChannelAtZero | src/debug-ui/timeline.ts:70-72 | at fraction 0 a channel keeps its first value |
| Timeline.RgbToHexChannels | src/debug-ui/timeline.ts:73 | a printed colour reads back as the same three channels and has no upper-case digit |
| Timeline.MixOtherValues | src/debug-ui/timeline.ts:75-77 | non-colour strings switch at half-way; values of different kinds keep the first |
| Timeline.BracketExists | src/debug-ui/timeline.ts:47-52 | a time strictly inside a sorted track lies in some adjacent pair |
| Timeline.SampleTrack | src/debug-ui/timeline.ts:39-78 | no keyframes gives the fallback; before the first or after the last keyframe gives its value; otherwise the interpolation of the unique bracketing pair of the time-sorted keyframes |
| Timeline.FindSegment | src/debug-ui/timeline.ts:49-52 | the scan stops at the adjacent pair that brackets the time |
| Timeline.BracketUnique | src/debug-ui/timeline.ts:49-52 | only one adjacent pair of a sorted track brackets a time |
| Timeline.ValueEquals | src/debug-ui/timeline.ts:80-83 | equal values compare equal, and anything but two numbers compares by strict equality |
| Timeline.ValueEqualsProperties | src/debug-ui/timeline.ts:80-83 | the comparison is reflexive and symmetric, and strict equality except between two numbers |
| Timeline.ValueEqualsNotTransitive | src/debug-ui/timeline.ts:81 | the 1e-9 tolerance is not transitive: a concrete triple shows it |
| Timeline.ClampTime | src/debug-ui/timeline.ts:134-136 | with a non-negative duration the result lies in [0, duration], and a time already there is kept |
| Timeline.ClampTimeProperties | src/debug-ui/timeline.ts:134-136 | the clamp lands in [0, duration], fixes times already there, sends earlier times to 0 and later ones to the duration, and is idempotent |
| Timeline.SnapTime | src/debug-ui/timeline.ts:284-288 | without a grid the time is kept; with a positive grid the snapped time is less than half a step below or at most half a step above it |
| Timeline.SnapOnGrid | src/debug-ui/timeline.ts:284-288 | times on the grid are kept |
| Timeline.FrameStepping | src/debug-ui/timeline.ts:308-322 | without snapping, "next frame" moves one frame on and wraps to 0 at the end; "previous frame" stops at 0 |
| Timeline.NextFrameUnderCoarseSnap | src/debug-ui/timeline.ts:308-312 | with the 1 s grid, "next frame" from 0 snaps back to 0 |
| Timeline.TickTime | src/debug-ui/timeline.ts:173-180 | with a positive duration the clock's next time lies in [0, duration] (`TickWraps` gives the wrap) |
| Timeline.TickWraps | src/debug-ui/timeline.ts:173-180 | moving forward the clock stays in [0, duration), adds the elapsed time while inside, and otherwise drops whole durations |
| Timeline.HasParamKey | src/debug-ui/timeline.ts:223 | true exactly when some track has that parameter |
| Timeline.RemoveId | src/debug-ui/timeline.ts:240 | the result holds exactly the tracks with another id |
| Timeline.RemoveIdKeepsOrder | src/debug-ui/timeline.ts:240 | the filter distributes over concatenation, so the kept tracks stay in order |
| Timeline.RemoveUnknownId | src/debug-ui/timeline.ts:240 | removing an absent id changes nothing |
| Timeline.FindId | src/debug-ui/timeline.ts:253 | the index found is the first with that id; none means no track has it |
| Timeline.GetTrack | src/debug-ui/timeline.ts:245-247 | a track is found exactly when one has that id, and it is one of the list's tracks |
| Timeline.UpdateTrackChangesOnlyTarget | src/debug-ui/timeline.ts:249-261 | an unknown id changes nothing; otherwise only the first track with the id changes, and only in the fields supplied |
| Timeline.WithIds | src/debug-ui/timeline.ts:755-758 | each loaded track keeps its id when non-empty and otherwise takes the generated one |
| Timeline.LoadedIdsNonEmpty | src/debug-ui/timeline.ts:755-758 | after loading every track has a non-empty id and is otherwise unchanged |
| Timeline.LoadStateBounds | src/debug-ui/timeline.ts:751-767 | a loaded state is paused, at least 0.1 s long, with its time inside it and its frame step positive (the old one when the new one is not) |
| Timeline.AddTrackKeepsKeysUnique | src/debug-ui/timeline.ts:223-224 | adding a track keeps one track per parameter |
| Timeline.RemoveTrackKeepsKeysUnique | src/debug-ui/timeline.ts:239-243 | removing tracks keeps one track per parameter |
| Timeline.TimelineModel.constructor | src/debug-ui/timeline.ts:111-130 | starts paused at time 0 with no tracks, the configured or default duration and frame step, and no snap grid |
| Timeline.TimelineModel.SetTime | src/debug-ui/timeline.ts:744-749 | the time becomes the snapped, clamped target; nothing else changes |
| Timeline.TimelineModel.SetSnapGrid | src/debug-ui/timeline.ts:380-384 | stores the grid and re-applies the current time under it |
| Timeline.TimelineModel.NextFrame | src/debug-ui/timeline.ts:308-312 | sets the time to the next-frame target |
| Timeline.TimelineModel.PrevFrame | src/debug-ui/timeline.ts:318-322 | sets the time to the previous-frame target |
| Timeline.TimelineModel.Play | src/debug-ui/timeline.ts:186-191 | starts playing and records the clock; a second call while playing changes nothing |
| Timeline.TimelineModel.Pause | src/debug-ui/timeline.ts:193-199 | stops playing; nothing else changes |
| Timeline.TimelineModel.Tick | src/debug-ui/timeline.ts:173-184 | when playing, advances the time by the elapsed seconds with wrap-around and records the clock; when paused, nothing changes |
| Timeline.TimelineModel.AddTrack | src/debug-ui/timeline.ts:219-237 | refused (null) when the parameter already has a track; otherwise appends and returns a new empty linear track |
| Timeline.TimelineModel.RemoveTrack | src/debug-ui/timeline.ts:239-243 | the track list loses the tracks with that id |
| Timeline.TimelineModel.UpdateTrack | src/debug-ui/timeline.ts:249-261 | the track list becomes `Updated`: the first track with the id takes the supplied fields |
| Timeline.TimelineModel.AddKeyframe | src/debug-ui/timeline.ts:338-347 | a found track gets a keyframe at the current time, re-sorted by time; an unknown track changes nothing |
| Timeline.TimelineModel.LoadState | src/debug-ui/timeline.ts:751-767 | the state becomes `Loaded`: paused, duration at least 0.1 s, time clamped, missing ids generated |
| Presets.ValidPresets | src/debug-ui/timelinePresets.ts:33 | the filter keeps only complete entries and never adds any |
| Presets.Load | src/debug-ui/timelinePresets.ts:26-39 | a loaded store holds only complete presets; missing, unparsable or non-array data gives the empty store |
| Presets.RawsOf | src/debug-ui/timelinePresets.ts:41-47 | what a save writes holds each preset, in order |
| Presets.KeepCompleteAll | src/debug-ui/timelinePresets.ts:33 | filtering a list of complete presets keeps all of them |
| Presets.LoadPersisted | src/debug-ui/timelinePresets.ts:26-47 | saving then loading keeps exactly the complete presets, in order, and the current id |
| Presets.LoadPersistedLoaded | src/debug-ui/timelinePresets.ts:26-47 | a loaded store survives a save and a reload unchanged |
| Presets.PersistedPresets | src/debug-ui/timelinePresets.ts:33-43 | reading back the saved list keeps the complete presets in order |
| Presets.FirstIndex | src/debug-ui/timelinePresets.ts:107 | the index found is the first with that id; none means no preset has it |
| Presets.Additions | src/debug-ui/timelinePresets.ts:148-154 | an import appends at most as many presets as it brings |
| Presets.AdditionsFresh | src/debug-ui/timelinePresets.ts:148-154 | the presets an import appends are complete, come from the imported list, have ids not already present, and no id twice |
| Presets.AdditionsComplete | src/debug-ui/timelinePresets.ts:148-154 | every valid imported preset with an unknown id has its id appended |
| Presets.Saved | src/debug-ui/timelinePresets.ts:106-112 | a save adds at most one preset and keeps every existing id and name in place |
| Presets.SavedFindsState | src/debug-ui/timelinePresets.ts:106-112 | after a save, looking the id up finds the saved state; no other entry changes and at most one is added |
| Presets.SavedIdempotent | src/debug-ui/timelinePresets.ts:106-112 | saving the same state twice is saving it once |
| Presets.Renamed | src/debug-ui/timelinePresets.ts:129-136 | renaming keeps every preset's id and state |
| Presets.RenamedEffect | src/debug-ui/timelinePresets.ts:129-136 | the first match takes the trimmed name; a blank name or unknown id changes nothing, and no other entry changes |
| Presets.RenamedIdempotent | src/debug-ui/timelinePresets.ts:129-136 | renaming twice with the same name is renaming once |
| Presets.CurrentOf | src/debug-ui/timelinePresets.ts:95-98 | a current preset is found exactly when the current id is non-empty and some preset has it, and it is that preset |
| Presets.ImportKeepsIdsUnique | src/debug-ui/timelinePresets.ts:148-154 | an import into a list of distinct ids keeps the ids distinct |
| Presets.PresetStore.constructor | src/debug-ui/timelinePresets.ts:66 | the store starts from what loading the persisted data yields |
| Presets.PresetStore.Init | src/debug-ui/timelinePresets.ts:50-85 | a file that loads replaces the data; a missing or unreadable one keeps it |
| Presets.PresetStore.SetCurrentPresetId | src/debug-ui/timelinePresets.ts:100-103 | sets the current id only |
| Presets.PresetStore.SavePreset | src/debug-ui/timelinePresets.ts:106-116 | the list becomes `Saved` and the id current, so the current preset then carries the saved state |
| Presets.PresetStore.SaveAsNewPreset | src/debug-ui/timelinePresets.ts:119-126 | appends one preset with the given id and makes it current, returning the id |
| Presets.PresetStore.RenamePreset | src/debug-ui/timelinePresets.ts:129-136 | the list becomes `Renamed`; the current id is kept |
| Presets.PresetStore.ImportPresets | src/debug-ui/timelinePresets.ts:144-159 | unparsable or non-array input changes nothing; otherwise exactly the `Additions` are appended after the old list |
| DebugCard.IndexOfMode | src/debug-ui/DebugNodeCard.ts:210 | every alpha mode is found in the order list, at its own position |
| DebugCard.AlphaCycle | src/debug-ui/DebugNodeCard.ts:209-211 | the alpha button steps normal, off, view-only and back: every click changes the mode and three clicks restore it |
| DebugCard.ApplyChannelMask | src/debug-ui/DebugNodeCard.ts:36-65 | the buffer becomes `Masked` of its old contents, byte by byte |
| DebugCard.DefaultMaskUnchanged | src/debug-ui/DebugNodeCard.ts:20-65 | the default channel state leaves every pixel unchanged |
| DebugCard.MaskChannels | src/debug-ui/DebugNodeCard.ts:45-51 | outside view-only mode a hidden colour reads 0, a shown one keeps its byte, and alpha is 255 in off mode and kept in normal mode |
| DebugCard.MaskViewOnly | src/debug-ui/DebugNodeCard.ts:52-58 | view-only mode shows alpha as grey in all three colours, whatever their flags, and makes the pixel opaque |
| DebugCard.MaskTwice | src/debug-ui/DebugNodeCard.ts:36-65 | outside view-only mode the mask is idempotent; in view-only mode a second pass turns every byte 255 |
| DebugCard.ApplyRangeRemap | src/debug-ui/DebugNodeCard.ts:68-86 | `min >= max` leaves the buffer alone; otherwise every byte is remapped |
| DebugCard.MulMonotone | src/debug-ui/DebugNodeCard.ts:80-83 | scaling by the positive factor keeps order |
| DebugCard.RoundMonotone | src/debug-ui/DebugNodeCard.ts:80-83 | `Math.round` keeps order |
| DebugCard.ClampMonotone | src/debug-ui/DebugNodeCard.ts:80-83 | clamping to [0, 255] keeps order |
| DebugCard.RemapEnds | src/debug-ui/DebugNodeCard.ts:73-83 | bytes at or below min become 0 and at or above max become 255 |
| DebugCard.RemapMonotone | src/debug-ui/DebugNodeCard.ts:73-83 | the remap keeps the order of bytes |
| DebugCard.RemapDefaultIdentity | src/debug-ui/DebugNodeCard.ts:113 | the default range [0, 255] maps every byte to itself |
| DebugCard.Clamp255Whole | src/debug-ui/DebugNodeCard.ts:242 | a whole number in [0, 255] is kept |
| DebugCard.Clamp255Ends | src/debug-ui/DebugNodeCard.ts:242 | values at or below 0 give 0, at or above 255 give 255 |
| DebugCard.Clamp255Monotone | src/debug-ui/DebugNodeCard.ts:242 | the clamp keeps order |
| DebugCard.DebugNodeCard.constructor | src/debug-ui/DebugNodeCard.ts:112-113 | a card starts with the default channel state and range [0, 255] |
| DebugCard.DebugNodeCard.ToggleColour | src/debug-ui/DebugNodeCard.ts:228-232 | a colour button flips its own flag only, and asks for one render |
| DebugCard.DebugNodeCard.CycleAlpha | src/debug-ui/DebugNodeCard.ts:209-220 | the alpha button moves to the next mode only, and asks for one render |
| DebugCard.DebugNodeCard.SlideMin | src/debug-ui/DebugNodeCard.ts:245-249 | the min slider's value is stored as it is; nothing else changes |
| DebugCard.DebugNodeCard.SlideMax | src/debug-ui/DebugNodeCard.ts:259-263 | the max slider's value is stored as it is; nothing else changes |
| DebugCard.DebugNodeCard.TypeMin | src/debug-ui/DebugNodeCard.ts:250-256 | a typed min is rounded and clamped to [0, 255]; nothing else changes |
| DebugCard.DebugNodeCard.TypeMax | src/debug-ui/DebugNodeCard.ts:264-270 | a typed max is rounded and clamped to [0, 255]; nothing else changes |
| ShaderDebug.ApplyChannelMask | src/pages/shader-debug.ts:74-89 | the buffer becomes `MaskedBytes` of its old contents: hidden channels 0, the rest kept |
| ShaderDebug.AllShownUnchanged | src/pages/shader-debug.ts:20-89 | the default all-shown mask leaves the buffer unchanged |
| ShaderDebug.OnlyHiddenChange | src/pages/shader-debug.ts:82-87 | a byte changes only if its channel is hidden, and a hidden channel's byte is 0 |
| ShaderDebug.MaskCompose | src/pages/shader-debug.ts:82-87 | masking twice hides the channels either mask hides |
| ShaderDebug.AlphaHiddenDiffersFromCard | src/pages/shader-debug.ts:86 | hiding alpha on this page makes a pixel transparent, while the node card's alpha-off makes it opaque |
| ShaderDebug.Flipped | src/pages/shader-debug.ts:160 | flipping a channel negates its flag and keeps the other three |
| ShaderDebug.WithMaskOthers | src/pages/shader-debug.ts:23-28 | replacing one stage's mask leaves every other stage's mask alone |
| ShaderDebug.FlipTwice | src/pages/shader-debug.ts:159-163 | two clicks on a channel button restore the mask |
| ShaderDebug.DebugPage.constructor | src/pages/shader-debug.ts:23-65 | every stage starts with all channels shown, no frame pending |
| ShaderDebug.DebugPage.ScheduleRender | src/pages/shader-debug.ts:107-113 | a frame is requested only when none is pending, so at most one is ever outstanding |
| ShaderDebug.DebugPage.RunFrame | src/pages/shader-debug.ts:109-111 | the frame clears the pending mark before it renders |
| ShaderDebug.DebugPage.ToggleChannel | src/pages/shader-debug.ts:159-163 | a channel button flips exactly that stage's channel and leaves a frame pending |
| ShaderEffect.CacheAfterProperties | src/lib/core/BaseShaderEffect.ts:151-171 | a texture lookup keeps every entry, adds only the key asked for, keeps handles distinct, and a repeat lookup changes nothing |
| ShaderEffect.Uniform.constructor | src/lib/core/effectUniforms.ts:35-37 | a plain uniform holds its initial value, clean and unbound |
| ShaderEffect.Uniform.Texture | src/lib/core/effectUniforms.ts:74-77 | a texture uniform holds `null`, clean and unbound |
| ShaderEffect.Uniform.Time | src/lib/core/effectUniforms.ts:117-119 | a time uniform holds its function; its value is `undefined` and it is never dirty |
| ShaderEffect.Uniform.SetValue | src/lib/core/effectUniforms.ts:42-124 | assignment stores the value and marks it dirty, and when bound merges it into the effect's state and notifies; a time uniform ignores it |
| ShaderEffect.Uniform.Bind | src/lib/core/effectUniforms.ts:52-130 | binding records the effect and key without touching value or dirty; a time uniform ignores it |
| ShaderEffect.Uniform.GetValueForFrame | src/lib/core/effectUniforms.ts:61-143 | a plain uniform returns the state's entry for the key, a texture uniform the key's cached texture (uploading only if it was dirty and holds an image), a time uniform its function of time; afterwards it is clean |
| ShaderEffect.BoundStateKeys | src/lib/core/BaseShaderEffect.ts:101-108 | binding writes only the non-time uniforms' names; every other key keeps its value |
| ShaderEffect.BoundStateHasLast | src/lib/core/BaseShaderEffect.ts:101-108 | after binding, each non-time uniform's name holds its value unless a later property of that name overrides it |
| ShaderEffect.Effect.constructor | src/lib/core/BaseShaderEffect.ts:58-61 | a new effect has an empty state, no listeners, is unbound and not running |
| ShaderEffect.Effect.SetState | src/lib/core/BaseShaderEffect.ts:74-77 | the partial state is merged over the old one and every listener is called once, in order |
| ShaderEffect.Effect.GetParam | src/lib/core/effectUniforms.ts:16-18 | a read through the params proxy gives the state's entry for the key, or `undefined` when it has none |
| ShaderEffect.Effect.Emit | src/lib/core/BaseShaderEffect.ts:80-82 | every listener is called once, in subscription order; nothing else changes |
| ShaderEffect.Effect.SetParam | src/lib/core/effectUniforms.ts:19-22 | a write through the params proxy sets that key, so a read gives it back while every other key reads as before, and notifies every listener |
| ShaderEffect.Effect.Subscribe | src/lib/core/BaseShaderEffect.ts:85-87 | a new listener is appended; one already present leaves the set as it is |
| ShaderEffect.Effect.Unsubscribe | src/lib/core/BaseShaderEffect.ts:87 | the returned function removes that listener and keeps the rest in order |
| ShaderEffect.Effect.GetTexture | src/lib/core/BaseShaderEffect.ts:151-171 | the key's texture is created on first use only, and an image is uploaded only when dirty and present |
| ShaderEffect.Effect.BindUniforms | src/lib/core/BaseShaderEffect.ts:99-110 | binding happens once: each uniform property is bound under its name and recorded, non-time values are written into the state without notifying; a second call changes nothing |
| ShaderEffect.Effect.BindProperties | src/lib/core/BaseShaderEffect.ts:101-108 | the property loop leaves the state as `BoundState` and appends exactly the uniform names, in order |
| ShaderEffect.Effect.BindProperty | src/lib/core/BaseShaderEffect.ts:103-107 | one property: a uniform is bound and recorded, and its value written unless it is a time uniform |
| ShaderEffect.Effect.Run | src/lib/core/BaseShaderEffect.ts:135-214 | a running effect is left alone; otherwise the uniforms are bound (once) and sampled once at time 0, so no recorded uniform is dirty, every texture uniform has its cache entry, and each dirty image is uploaded; then the context, default texture and frame loop exist |
| ShaderEffect.Effect.FrameUniforms | src/lib/core/BaseShaderEffect.ts:176-184 | every recorded name gets a value, plain uniforms the state's entry and texture uniforms their cached texture; afterwards no recorded uniform is dirty, the cache only grew by recorded names, and every dirty image was uploaded |
| ShaderEffect.Effect.SampleUniform | src/lib/core/BaseShaderEffect.ts:180-181 | one name of the loop: its uniform's frame value, after which it is clean; no other uniform's dirty flag changes |
| ShaderEffect.Effect.Unmount | src/lib/core/BaseShaderEffect.ts:217-232 | every cached texture is destroyed and the cache emptied, the context destroyed once if it existed; a second call destroys nothing more |
| ShaderEffect.WithoutKeepsDistinct | src/lib/core/BaseShaderEffect.ts:87 | removing a listener keeps the listener list free of repeats |
| ShaderEffect.SetStateMerges | src/lib/core/BaseShaderEffect.ts:75 | after a merge the partial's keys read its values and every other key reads as before |
| ShaderEffect.SubscribeRoundTrip | src/lib/core/BaseShaderEffect.ts:85-88 | subscribing a new listener and calling the returned function restores the list; removing a present listener leaves none of it |
| Controls.ClampToRange | src/debug-ui/controls.ts:135 | the typed value is kept when in range, else the nearer end; with `min > max` it is always `max` |
| Controls.ClampIdempotent | src/debug-ui/controls.ts:135 | clamping again changes nothing |
| Controls.ClampMonotone | src/debug-ui/controls.ts:135 | clamping keeps the order of entries |
| Controls.Slider.constructor | src/debug-ui/controls.ts:104-121 | both inputs start at the initial value; nothing reported |
| Controls.Slider.ValueInputChange | src/debug-ui/controls.ts:132-141 | a finite entry is clamped, shown in both inputs and reported once; a non-finite one reports nothing and restores the value box from the slider |
| Controls.Slider.RangeInput | src/debug-ui/controls.ts:127-131 | the slider holds the value it was moved to, which is shown in the value box and reported as it is |
| Controls.Slider.SyncDom | src/debug-ui/controls.ts:122-147 | both inputs show the value; nothing is reported |
| Controls.TypedValuesInRange | src/debug-ui/controls.ts:132-141 | every value reported from the value box lies in the slider's range |
| Controls.WithHash | src/debug-ui/controls.ts:321-329 | the result starts with `#`; a value with one is kept, otherwise `#` is prefixed |
| Controls.WithHashIdempotent | src/debug-ui/controls.ts:321-329 | prefixing twice is prefixing once |
| Controls.AcceptedColours | src/debug-ui/controls.ts:320-334 | a sync accepts exactly `#` and six hex digits, or six hex digits alone |
| Controls.InitialPicker | src/debug-ui/controls.ts:312-313 | the picker starts at a seven-character value, else a `#`-prefixed value, else `#000000` |
| Controls.ColorInput.constructor | src/debug-ui/controls.ts:312-317 | the picker starts at `InitialPicker`, the text box at the value; nothing reported |
| Controls.ColorInput.SyncToParams | src/debug-ui/controls.ts:320-327 | an accepted colour goes into both inputs and is reported once; anything else changes nothing, so the sync itself never makes agreeing inputs disagree |
| Controls.ColorInput.SyncFromStore | src/debug-ui/controls.ts:328-334 | like `SyncToParams` without reporting |
| Controls.ColorInput.PickerInput | src/debug-ui/controls.ts:335 | the picker holds what was picked; an accepted colour ends up in both inputs and is reported once, anything else is not reported |
| Controls.ColorInput.TextChange | src/debug-ui/controls.ts:336 | the text box holds what was typed; the two inputs agree afterwards exactly when the entry was an accepted colour, which is then reported once |
| Controls.StoreCallbacks | src/debug-ui/controls.ts:94-99 | one store callback per event, in order |
| Controls.StoreBoundChange | src/debug-ui/controls.ts:94-99 | the store is written as `set` writes it, its callbacks run in order, then the render request when there is one |
| Controls.RenderComesLast | src/debug-ui/controls.ts:94-99 | the render request, if any, comes after every store callback and only once |

## Left out

- WebGL and GLSL: texture, framebuffer and uniform uploads, the draw calls and the shader sources are opaque handles and `Draw` records. `compileShader` and `createProgram` come from `src/Halftone/halftoneGl.ts`, which is not part of this model; their outcomes are inputs (`Alloc`, `ShaderOutcome`).
- Floating point: numbers are exact reals or integers. The model does not capture the following:
  - IEEE rounding;
  - `NaN` and `Infinity`. A non-finite `Number(…)` is `None`.
  - `Float32Array` precision in the SAT, whose entries are exact integers here;
  - the float-only display quantities (`radiusScale`, the SAT display scale, the half-pixel crop offset).
- DOM, text formatting (`toFixed`, `formatTime`, `formatSliderValue`), CSS classes and labels: left out. Inputs are modelled by the values they hold.
- I/O is left out:
  - `fetch` of shaders and presets;
  - `localStorage`;
  - `JSON.parse` and `JSON.stringify`, modelled on already-parsed values (`Stored`);
  - `FileReader` and `Image` loading, and `TextureUniform.loadFromFile`;
  - the file writes of `saveToFile`.
- Clocks and scheduling: `performance.now`, `requestAnimationFrame`, `cancelAnimationFrame` and `setTimeout` are left out. Times are parameters, and a requested frame is a flag or a count.
- `Math.random` ids are parameters (`AddTrack`'s `id`, `LoadState`'s `newIds`, `SaveAsNewPreset`'s `id`).
- Framework glue is left out: regl's draw command and `regl.frame` inside `run`, React's `useView`/`useSyncExternalStore`, and Tweakpane. Listener bodies are identifiers, and their calls are recorded in order.
- UI construction is left out:
  - the timeline's DOM (ruler, track list, keyframe editor);
  - `createHalftonePane` and `createStagePane`;
  - the node card's DOM;
  - `createNumberInput`, `createCheckbox` and the other controls of `src/debug-ui/controls.ts` besides the slider, the colour input and the store-bound `onChange`;
  - the shader debug page's `render` loop, shader reload button and file input.
- Timeline propagation is left out: `applyKeyframes` (writing sampled values into the store) and `recomputeChangedKeys`. The set-listener that auto-adds a track for an untracked key (`src/debug-ui/timeline.ts:208-217`) is `AddTrack` plus those, and is not modelled as a listener.
- Timeline.TimelineModel.AddKeyframe: models one pass of the add-keyframe button's loop, for one track found by id. The loop over the changed keys and the final `setChangedKeys(new Set())` are the store's operations and are not repeated here.
- Timeline.TimelineModel.Tick: requires a non-zero duration. With duration 0 the source's `%` yields `NaN`, which is not modelled.
- Timeline.SnapTime: requires a non-zero grid. The snap menu only offers 1, 0.5 and 0.1, and `TimelineModel.SetSnapGrid` requires a positive grid for the same reason.
- Pane.AniPane.ApplyAni: requires `aniMax != 0`, because the source divides by it. `OnAniChange`, `OnAniMaxChange`, `Tick` and `AniApplied` share this requirement, and `Tick` also needs a non-zero cycle time.
- ParamStore.Store.Set: requires numbers for `blendValue`, `timeValue` and `offset2Peak`, the keys the curve reads. A string there would make the source compute `NaN`. `Controls.StoreBoundChange` inherits this.
- ParamStore.Store.Unsubscribe: requires the key to have a subscriber list. Only the function returned by `subscribe` reaches it, and `subscribe` creates the list.
- DebugCard.ApplyChannelMask: requires a buffer length that is a multiple of four, as every canvas `ImageData` buffer has. `DebugCard.ApplyRangeRemap` and `ShaderDebug.ApplyChannelMask` require the same.
- SatRgb.BuildSatRgbInto: requires a `size×size` RGBA input and an output of at least `(size+1)²·4` entries. That is what `ensureSize` and the crop provide.
- Processor.HalftoneProcessor.Render: the cropped pixels are a parameter of the right size, since canvas drawing is not modelled.
- ShaderEffect.Effect.Run: the uploads are stated complete only when no uniform object is recorded under two names (`UniformsDistinct`); with one object under two names, the first name's visit clears the dirty flag, so the second name's texture gets no upload, and the model states nothing about uploads in that case.
- ShaderEffect.Effect.FrameUniforms: the same condition on its upload clause.
- Controls.Slider.RangeInput: the browser's own clamping and stepping of a range input's value is not modelled; the value arrives as it is.
- Presets: JSON fields of the wrong type (a numeric `id`, say) are not modelled. Raw presets have string ids and names, and the truthiness filter is stated on those.

## Findings

| source | as written | input that shows it | evidently intended | confidence | as-written member | corrected member |
|---|---|---|---|---|---|---|
| src/Halftone/halftoneProcessor.ts:217-237 | `ensureSize` recreates `satTex` but keeps the SAT cache key `lastImage`/`lastSize` | render image 1 (2×2); render image 2 (4×4) with the source texture failing to allocate, so `render` returns null; render image 1 again: the key (1, 2) matches, the upload is skipped, and pass 1 samples a fresh, empty `satTex` | forget the cache key whenever `satTex` is recreated, so that every render draws from the current image's SAT | not executed | ProcessorProps.StaleSatAfterIncompleteResize | ProcessorProps.RenderFixedUsesCurrentSat |
| src/Halftone/halftoneProcessor.ts:438-449 | on a failed compile, `reloadShaders` returns without deleting the shaders that did compile; on a failed link it deletes the shaders but not a program that did link | `fragmentPass2` fails to compile (the vertex and first fragment shaders stay alive); or only the second link fails (the first program stays alive) | delete whatever a failed attempt created, leaving the live GPU objects as they were | not executed | ProcessorProps.ReloadLeaks | ProcessorProps.ReloadNoLeak |
