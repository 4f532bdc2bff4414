// The shader effect's state store and its uniforms: a merge-on-write state
// map with subscribers, uniforms that mark themselves dirty when assigned
// and hand a value to each frame, the once-only binding of an effect's
// uniform properties, and the per-key texture cache that uploads only
// dirty images. Uniforms and the effect refer to each other (a uniform's
// setter writes into its effect's state), so both live in one module.

module ShaderEffect {
  import opened Basics
  import ParamStore

  type Listener = ParamStore.Listener

  /** A state entry: a plain value, an image element (by identity), or `null`. */
  datatype StateValue = Data(v: Value) | Image(image: nat) | Null

  /** What a uniform hands to the draw call for one frame: a state value or a GPU texture handle. */
  datatype FrameValue = Sv(sv: StateValue) | Tex(texture: nat)

  /** The three uniform classes: `Uniform`, `TextureUniform`, and `TimeUniform` with its function of time. */
  datatype UniformKind = PlainKind | TextureKind | TimeKind(fn: real -> StateValue)

  /** A property of the effect object: a uniform under its name, or anything else. */
  datatype OwnProp = UniformProp(name: string, u: Uniform) | OtherProp(name: string)

  /** A texture upload: the texture handle and the image uploaded into it. */
  datatype Upload = Upload(texture: nat, image: nat)

  /** `state[key]`, which is `undefined` for a missing key. */
  function Lookup(state: map<string, StateValue>, key: string): StateValue {
    if key in state then state[key] else Data(Undefined)
  }

  /** `img instanceof HTMLImageElement ? img : null`. */
  function ImageOf(v: StateValue): Option<nat> {
    if v.Image? then Some(v.image) else None
  }

  // ---------------------------------------------------------------------
  // The texture cache
  // ---------------------------------------------------------------------

  /** The cache after `getTexture(key, …)`: an existing entry is kept, a missing one is created with the next handle. */
  function CacheAfter(cache: map<string, nat>, next: nat, key: string): map<string, nat> {
    if key in cache then cache else cache[key := next]
  }

  function NextAfter(cache: map<string, nat>, next: nat, key: string): nat {
    if key in cache then next else next + 1
  }

  /** Handles in the cache are below `next` and belong to one key each. */
  predicate CacheValid(cache: map<string, nat>, next: nat) {
    (forall k :: k in cache ==> cache[k] < next)
    && (forall k1, k2 :: k1 in cache && k2 in cache && k1 != k2 ==> cache[k1] != cache[k2])
  }

  /**
   * A lookup keeps every existing entry, adds at most the one key asked
   * for, keeps handles distinct, and asking again for the same key changes
   * nothing further.
   */
  lemma CacheAfterProperties(cache: map<string, nat>, next: nat, key: string)
    requires CacheValid(cache, next)
    ensures var c := CacheAfter(cache, next, key);
      && c.Keys == cache.Keys + {key}
      && (forall k :: k in cache ==> c[k] == cache[k])
      && CacheValid(c, NextAfter(cache, next, key))
      && CacheAfter(c, NextAfter(cache, next, key), key) == c
      && NextAfter(c, NextAfter(cache, next, key), key) == NextAfter(cache, next, key)
  {}

  // ---------------------------------------------------------------------
  // Uniforms
  // ---------------------------------------------------------------------

  class Uniform {
    const kind: UniformKind
    /** `_value`; unused by a time uniform. */
    var value: StateValue
    var dirty: bool
    /** `_effect` and `_key`, set by `bind`. */
    var effect: Effect?
    var key: Option<string>

    /** `new Uniform(initialValue)`: holds the value, clean and unbound. */
    constructor (initial: StateValue)
      ensures kind == PlainKind && Value() == initial && !Dirty() && effect == null && key == None
    {
      kind := PlainKind;
      value := initial;
      dirty := false;
      effect := null;
      key := None;
    }

    /** `new TextureUniform()`: holds `null`, clean and unbound. */
    constructor Texture()
      ensures kind == TextureKind && Value() == Null && !Dirty() && effect == null && key == None
    {
      kind := TextureKind;
      value := Null;
      dirty := false;
      effect := null;
      key := None;
    }

    /** `new TimeUniform(fn)`. */
    constructor Time(fn: real -> StateValue)
      ensures kind == TimeKind(fn) && Value() == Data(Undefined) && !Dirty() && effect == null && key == None
    {
      kind := TimeKind(fn);
      value := Null;
      dirty := false;
      effect := null;
      key := None;
    }

    /** The `value` getter: a time uniform's is always `undefined`. */
    function Value(): StateValue
      reads this
    {
      if kind.TimeKind? then Data(Undefined) else value
    }

    /** The `dirty` getter: a time uniform is never dirty. */
    function Dirty(): bool
      reads this
    {
      !kind.TimeKind? && dirty
    }

    /**
     * The `value` setter: stores the value and marks it dirty, and when
     * bound writes it into the effect's state (which notifies the effect's
     * listeners). Assigning to a time uniform does nothing.
     */
    method SetValue(v: StateValue)
      modifies this, effect
      ensures effect == old(effect) && key == old(key)
      ensures kind.TimeKind? ==> Value() == old(Value()) && !Dirty()
      ensures kind.TimeKind? && effect != null ==> unchanged(effect)
      ensures !kind.TimeKind? ==> Value() == v && Dirty()
      ensures !kind.TimeKind? && effect != null && key.Some? ==>
        effect.state == old(effect.state)[key.value := v]
        && effect.notified == old(effect.notified) + old(effect.listeners)
        && effect.listeners == old(effect.listeners)
      ensures (key.None? || kind.TimeKind?) && effect != null ==> unchanged(effect)
    {
      if kind.TimeKind? {
        return;
      }
      value := v;
      dirty := true;
      if effect != null && key.Some? {
        effect.SetState(map[key.value := v]);
      }
    }

    /** `bind(effect, key)`; a time uniform ignores it. */
    method Bind(e: Effect, k: string)
      modifies this
      ensures value == old(value) && dirty == old(dirty)
      ensures kind.TimeKind? ==> effect == old(effect) && key == old(key)
      ensures !kind.TimeKind? ==> effect == e && key == Some(k)
    {
      if !kind.TimeKind? {
        effect := e;
        key := Some(k);
      }
    }

    /**
     * `getValueForFrame(state, time, ctx, key)`: a plain uniform returns
     * `state[key]` (not its own value) and clears dirty; a texture uniform
     * asks the effect's cache for the key's texture, passing the dirty flag
     * as it was, then clears dirty; a time uniform returns `fn(time)`.
     */
    method GetValueForFrame(state: map<string, StateValue>, time: real, ctx: Effect, k: string) returns (r: FrameValue)
      requires ctx.Valid()
      modifies this, ctx
      ensures ctx.Valid() && !Dirty() && value == old(value) && effect == old(effect) && key == old(key)
      ensures ctx.state == old(ctx.state) && ctx.uniformNames == old(ctx.uniformNames) && ctx.uniformOf == old(ctx.uniformOf)
      ensures ctx.bound == old(ctx.bound)
      ensures kind.PlainKind? ==> r == Sv(Lookup(state, k)) && unchanged(ctx)
      ensures kind.TimeKind? ==> r == Sv(kind.fn(time)) && unchanged(ctx) && dirty == old(dirty)
      ensures kind.TextureKind? ==>
        ctx.CacheStep(old(ctx.textureMap), old(ctx.nextTexture), old(ctx.uploads), k, ImageOf(Lookup(state, k)), old(dirty))
        && r == Tex(ctx.textureMap[k])
    {
      match kind {
        case PlainKind =>
          r := Sv(Lookup(state, k));
          dirty := false;
        case TextureKind =>
          var img := ImageOf(Lookup(state, k));
          var isDirty := dirty;
          var t := ctx.GetTexture(k, img, isDirty);
          r := Tex(t);
          dirty := false;
        case TimeKind(fn) =>
          r := Sv(fn(time));
      }
    }
  }

  // ---------------------------------------------------------------------
  // The effect
  // ---------------------------------------------------------------------

  /** The names of the first `n` properties that are uniforms, in order. */
  function UniformNames(own: seq<OwnProp>, n: nat): seq<string>
    requires n <= |own|
  {
    if n == 0 then []
    else UniformNames(own, n - 1) + (if own[n - 1].UniformProp? then [own[n - 1].name] else [])
  }

  /**
   * The state after binding the first `n` properties: each non-time
   * uniform's value `vals[i]` is written under its property name, later
   * properties last.
   */
  function BoundState(state: map<string, StateValue>, own: seq<OwnProp>, vals: seq<StateValue>, n: nat): map<string, StateValue>
    requires |vals| == |own| && n <= |own|
  {
    if n == 0 then state
    else
      var s := BoundState(state, own, vals, n - 1);
      if own[n - 1].UniformProp? && !own[n - 1].u.kind.TimeKind? then s[own[n - 1].name := vals[n - 1]] else s
  }

  /** Binding writes exactly the non-time uniforms' names; every other key keeps its value. */
  lemma {:induction false} BoundStateKeys(state: map<string, StateValue>, own: seq<OwnProp>, vals: seq<StateValue>, n: nat, k: string)
    requires |vals| == |own| && n <= |own|
    requires forall i :: 0 <= i < n ==> !(own[i].UniformProp? && !own[i].u.kind.TimeKind? && own[i].name == k)
    ensures k in BoundState(state, own, vals, n) <==> k in state
    ensures k in state ==> BoundState(state, own, vals, n)[k] == state[k]
  {
    if n > 0 {
      BoundStateKeys(state, own, vals, n - 1, k);
    }
  }

  /** A non-time uniform's value is what the state holds under its name, unless a later property of that name overrides it. */
  lemma {:induction false} BoundStateHasLast(state: map<string, StateValue>, own: seq<OwnProp>, vals: seq<StateValue>, n: nat, i: nat)
    requires |vals| == |own| && i < n <= |own|
    requires own[i].UniformProp? && !own[i].u.kind.TimeKind?
    requires forall j :: i < j < n ==> own[j].name != own[i].name
    ensures own[i].name in BoundState(state, own, vals, n) && BoundState(state, own, vals, n)[own[i].name] == vals[i]
  {
    if n - 1 != i {
      BoundStateHasLast(state, own, vals, n - 1, i);
    }
  }

  /** The uniforms among the properties. */
  function UniformsOf(own: seq<OwnProp>): set<Uniform> {
    set i | 0 <= i < |own| && own[i].UniformProp? :: own[i].u
  }

  /** The current values of the properties' uniforms (`Null` for other properties). */
  function ValuesOf(own: seq<OwnProp>): (vals: seq<StateValue>)
    reads UniformsOf(own)
    ensures |vals| == |own|
  {
    seq(|own|, i reads UniformsOf(own) requires 0 <= i < |own| => if own[i].UniformProp? then own[i].u.value else Null)
  }

  /** `BaseShaderEffect`. `running` is `regl != null`; `frameLoop` is `cancelFrame != null`. */
  class Effect {
    var state: map<string, StateValue>
    var listeners: seq<Listener>
    /** Every listener call so far, in order. */
    var notified: seq<Listener>
    var bound: bool
    var uniformNames: seq<string>
    /** The uniform each recorded name refers to (`this[name]`). */
    var uniformOf: map<string, Uniform>
    var running: bool
    var hasDefaultTex: bool
    var frameLoop: bool
    /** `_textureMap`, from key to texture handle. */
    var textureMap: map<string, nat>
    /** The next fresh texture handle. */
    var nextTexture: nat
    var uploads: seq<Upload>
    /** Every texture handle destroyed so far. */
    var destroyed: set<nat>
    /** How many times the GL context has been destroyed. */
    var glDestroyed: nat

    /** Listeners form a set (no repeats), every recorded name has its uniform, and the cache is well formed. */
    predicate Valid()
      reads this
    {
      Distinct(listeners)
      && (forall n :: n in uniformNames ==> n in uniformOf)
      && CacheValid(textureMap, nextTexture)
    }

    /** The uniforms the effect has recorded. */
    function Uniforms(): set<Uniform>
      reads this
    {
      set n | n in uniformOf :: uniformOf[n]
    }

    /** No uniform object is recorded under two names. */
    predicate UniformsDistinct()
      reads this
    {
      forall m, n :: m in uniformOf && n in uniformOf && m != n ==> uniformOf[m] != uniformOf[n]
    }

    /** A new effect: empty state, no listeners, unbound, not running. */
    constructor ()
      ensures Valid() && state == map[] && listeners == [] && notified == []
      ensures !bound && uniformNames == [] && uniformOf == map[]
      ensures !running && !hasDefaultTex && !frameLoop && textureMap == map[] && uploads == []
    {
      state := map[];
      listeners := [];
      notified := [];
      bound := false;
      uniformNames := [];
      uniformOf := map[];
      running := false;
      hasDefaultTex := false;
      frameLoop := false;
      textureMap := map[];
      nextTexture := 0;
      uploads := [];
      destroyed := {};
      glDestroyed := 0;
    }

    /** The params proxy's read: `getState()[key]`, `undefined` for a key the state lacks. */
    function GetParam(k: string): (r: StateValue)
      reads this
      ensures k in state ==> r == state[k]
      ensures k !in state ==> r == Data(Undefined)
    {
      Lookup(state, k)
    }

    /** `setState(partial)`: merge, then call every listener once, in order. */
    method SetState(partial: map<string, StateValue>)
      modifies this
      ensures state == old(state) + partial
      ensures notified == old(notified) + old(listeners)
      ensures listeners == old(listeners) && bound == old(bound) && uniformNames == old(uniformNames)
      ensures uniformOf == old(uniformOf) && running == old(running) && hasDefaultTex == old(hasDefaultTex)
      ensures frameLoop == old(frameLoop) && textureMap == old(textureMap) && nextTexture == old(nextTexture)
      ensures uploads == old(uploads) && destroyed == old(destroyed) && glDestroyed == old(glDestroyed)
    {
      state := state + partial;
      Emit();
    }

    /** `emit`: every listener is called once, in subscription order. */
    method Emit()
      modifies this
      ensures notified == old(notified) + listeners
      ensures state == old(state) && listeners == old(listeners) && bound == old(bound) && uniformNames == old(uniformNames)
      ensures uniformOf == old(uniformOf) && running == old(running) && hasDefaultTex == old(hasDefaultTex)
      ensures frameLoop == old(frameLoop) && textureMap == old(textureMap) && nextTexture == old(nextTexture)
      ensures uploads == old(uploads) && destroyed == old(destroyed) && glDestroyed == old(glDestroyed)
    {
      var i := 0;
      while i < |listeners|
        invariant 0 <= i <= |listeners|
        invariant notified == old(notified) + listeners[..i]
        invariant state == old(state) && listeners == old(listeners) && bound == old(bound) && uniformNames == old(uniformNames)
        invariant uniformOf == old(uniformOf) && running == old(running) && hasDefaultTex == old(hasDefaultTex)
        invariant frameLoop == old(frameLoop) && textureMap == old(textureMap) && nextTexture == old(nextTexture)
        invariant uploads == old(uploads) && destroyed == old(destroyed) && glDestroyed == old(glDestroyed)
      {
        notified := notified + [listeners[i]];
        assert listeners[..i + 1] == listeners[..i] + [listeners[i]];
        i := i + 1;
      }
      assert listeners[..i] == listeners;
    }

    /** The params proxy's write: `setState({key: value})`. */
    method SetParam(k: string, v: StateValue)
      modifies this
      ensures state == old(state)[k := v] && notified == old(notified) + old(listeners)
      ensures listeners == old(listeners)
      ensures GetParam(k) == v && forall j :: j != k ==> GetParam(j) == old(GetParam(j))
    {
      SetState(map[k := v]);
    }

    /** `subscribe(listener)`: adding a listener already in the set keeps the set as it is. */
    method Subscribe(l: Listener)
      requires Valid()
      modifies this
      ensures Valid() && state == old(state) && notified == old(notified)
      ensures listeners == if l in old(listeners) then old(listeners) else old(listeners) + [l]
    {
      if l !in listeners {
        listeners := listeners + [l];
      }
    }

    /** The function `subscribe` returns: `listeners.delete(listener)`. */
    method Unsubscribe(l: Listener)
      requires Valid()
      modifies this
      ensures Valid() && state == old(state) && notified == old(notified)
      ensures listeners == ParamStore.Without(old(listeners), l)
    {
      WithoutKeepsDistinct(listeners, l);
      listeners := ParamStore.Without(listeners, l);
    }

    /**
     * `getTexture(key, image, isDirty)` inside `run`: the key's cache entry
     * is created the first time only, and the image is uploaded only when
     * the uniform was dirty and an image is present.
     */
    method GetTexture(k: string, image: Option<nat>, isDirty: bool) returns (tex: nat)
      requires Valid()
      modifies this
      ensures Valid()
      ensures CacheStep(old(textureMap), old(nextTexture), old(uploads), k, image, isDirty)
      ensures tex == textureMap[k]
      ensures state == old(state) && listeners == old(listeners) && notified == old(notified)
      ensures bound == old(bound) && uniformNames == old(uniformNames) && uniformOf == old(uniformOf)
      ensures running == old(running) && hasDefaultTex == old(hasDefaultTex) && frameLoop == old(frameLoop)
      ensures destroyed == old(destroyed) && glDestroyed == old(glDestroyed)
    {
      CacheAfterProperties(textureMap, nextTexture, k);
      if k !in textureMap {
        textureMap := textureMap[k := nextTexture];
        nextTexture := nextTexture + 1;
      }
      tex := textureMap[k];
      if isDirty && image.Some? {
        uploads := uploads + [Upload(tex, image.value)];
      }
    }

    /** The cache, the handle counter and the uploads after one `getTexture` call from the given old values. */
    predicate CacheStep(cache: map<string, nat>, next: nat, ups: seq<Upload>, k: string, image: Option<nat>, isDirty: bool)
      reads this
    {
      textureMap == CacheAfter(cache, next, k)
      && nextTexture == NextAfter(cache, next, k)
      && uploads == ups + (if isDirty && image.Some? then [Upload(textureMap[k], image.value)] else [])
    }

    /**
     * `_bindUniforms`: once only. Each uniform property is bound to this
     * effect under its name, its name is recorded, and, unless it is a time
     * uniform, its value is written into the state (without notifying).
     */
    method BindUniforms(own: seq<OwnProp>)
      requires Valid()
      modifies this, UniformsOf(own)
      ensures Valid() && bound
      ensures old(bound) ==> unchanged(this) && forall u :: u in UniformsOf(own) ==> unchanged(u)
      ensures forall n :: n in uniformOf ==> (n in old(uniformOf) && uniformOf[n] == old(uniformOf)[n]) || uniformOf[n] in UniformsOf(own)
      ensures !old(bound) ==>
        && state == BoundState(old(state), own, old(ValuesOf(own)), |own|)
        && uniformNames == old(uniformNames) + UniformNames(own, |own|)
        && (forall i :: 0 <= i < |own| && own[i].UniformProp? && !own[i].u.kind.TimeKind? ==> own[i].u.effect == this && own[i].u.key.Some?)
      ensures listeners == old(listeners) && notified == old(notified) && running == old(running)
      ensures textureMap == old(textureMap) && nextTexture == old(nextTexture) && uploads == old(uploads)
      ensures forall i :: 0 <= i < |own| && own[i].UniformProp? ==> own[i].u.value == old(own[i].u.value) && own[i].u.dirty == old(own[i].u.dirty)
    {
      if bound {
        return;
      }
      BindProperties(own);
      bound := true;
    }

    /** The loop of `_bindUniforms` over the effect's own properties. */
    method BindProperties(own: seq<OwnProp>)
      requires Valid()
      modifies this, UniformsOf(own)
      ensures Valid() && bound == old(bound)
      ensures forall n :: n in uniformOf ==> (n in old(uniformOf) && uniformOf[n] == old(uniformOf)[n]) || uniformOf[n] in UniformsOf(own)
      ensures state == BoundState(old(state), own, old(ValuesOf(own)), |own|)
      ensures uniformNames == old(uniformNames) + UniformNames(own, |own|)
      ensures forall i :: 0 <= i < |own| && own[i].UniformProp? && !own[i].u.kind.TimeKind? ==> own[i].u.effect == this && own[i].u.key.Some?
      ensures listeners == old(listeners) && notified == old(notified) && running == old(running)
      ensures textureMap == old(textureMap) && nextTexture == old(nextTexture) && uploads == old(uploads)
      ensures forall i :: 0 <= i < |own| && own[i].UniformProp? ==> own[i].u.value == old(own[i].u.value) && own[i].u.dirty == old(own[i].u.dirty)
    {
      ghost var vals := ValuesOf(own);
      var i := 0;
      while i < |own|
        invariant 0 <= i <= |own| && Valid()
        invariant state == BoundState(old(state), own, vals, i)
        invariant uniformNames == old(uniformNames) + UniformNames(own, i)
        invariant forall j :: 0 <= j < |own| && own[j].UniformProp? ==> own[j].u.value == vals[j] && own[j].u.dirty == old(own[j].u.dirty)
        invariant forall j :: 0 <= j < i && own[j].UniformProp? && !own[j].u.kind.TimeKind? ==> own[j].u.effect == this && own[j].u.key.Some?
        invariant listeners == old(listeners) && notified == old(notified) && running == old(running) && bound == old(bound)
        invariant textureMap == old(textureMap) && nextTexture == old(nextTexture) && uploads == old(uploads)
        invariant forall n :: n in uniformOf ==> (n in old(uniformOf) && uniformOf[n] == old(uniformOf)[n]) || uniformOf[n] in UniformsOf(own)
      {
        var p := own[i];
        if p.UniformProp? {
          assert p.u in UniformsOf(own);
        }
        BindProperty(p);
        i := i + 1;
      }
    }

    /** One step of `_bindUniforms`: a uniform property is bound, recorded and, unless a time uniform, written into the state. */
    method BindProperty(p: OwnProp)
      requires Valid()
      modifies this, if p.UniformProp? then {p.u} else {}
      ensures Valid()
      ensures p.UniformProp? ==> p.u.value == old(p.u.value) && p.u.dirty == old(p.u.dirty)
      ensures p.UniformProp? && !p.u.kind.TimeKind? ==> p.u.effect == this && p.u.key.Some?
      ensures state == if p.UniformProp? && !p.u.kind.TimeKind? then old(state)[p.name := old(p.u.value)] else old(state)
      ensures uniformNames == old(uniformNames) + (if p.UniformProp? then [p.name] else [])
      ensures uniformOf == if p.UniformProp? then old(uniformOf)[p.name := p.u] else old(uniformOf)
      ensures listeners == old(listeners) && notified == old(notified) && running == old(running) && bound == old(bound)
      ensures textureMap == old(textureMap) && nextTexture == old(nextTexture) && uploads == old(uploads)
    {
      if p.UniformProp? {
        p.u.Bind(this, p.name);
        if !p.u.kind.TimeKind? {
          state := state[p.name := p.u.value];
        }
        uniformNames := uniformNames + [p.name];
        uniformOf := uniformOf[p.name := p.u];
      }
    }

    /**
     * `run`: a no-op while running; otherwise bind the uniforms, create the
     * context and the default texture, take the sample `getUniformsForFrame(0)`
     * (which clears every recorded uniform's dirty flag, creates each texture
     * uniform's cache entry and uploads the dirty images), and start the
     * frame loop.
     */
    method Run(own: seq<OwnProp>)
      requires Valid()
      modifies this, UniformsOf(own), Uniforms()
      ensures Valid()
      ensures old(running) ==> unchanged(this) && forall u :: u in UniformsOf(own) ==> unchanged(u)
      ensures !old(running) ==> running && hasDefaultTex && frameLoop && bound
      ensures !old(running) && !old(bound) ==> state == BoundState(old(state), own, old(ValuesOf(own)), |own|)
      ensures !old(running) && old(bound) ==> state == old(state)
      ensures !old(running) ==> forall n :: n in uniformNames ==> !uniformOf[n].Dirty()
      ensures !old(running) ==> forall n :: n in uniformNames && uniformOf[n].kind.TextureKind? ==> n in textureMap
      ensures !old(running) ==> |old(uploads)| <= |uploads| && uploads[..|old(uploads)|] == old(uploads)
      ensures !old(running) && UniformsDistinct() ==>
        forall i :: 0 <= i < |own| && own[i].UniformProp? && own[i].u.kind.TextureKind? && old(own[i].u.dirty)
                    && own[i].name in uniformNames && uniformOf[own[i].name] == own[i].u && Lookup(state, own[i].name).Image? ==>
          Upload(textureMap[own[i].name], Lookup(state, own[i].name).image) in uploads
    {
      if running {
        return;
      }
      BindUniforms(own);
      var sample := FrameUniforms(0.0);
      running := true;
      hasDefaultTex := true;
      frameLoop := true;
    }

    /**
     * One frame's uniform values (`getUniformsForFrame`): every recorded
     * name gets its uniform's frame value, read from one snapshot of the
     * state; afterwards none of those uniforms is dirty, every texture
     * uniform has its cache entry, earlier uploads are kept, and (when no
     * uniform is recorded under two names) every texture uniform that was
     * dirty and whose state entry is an image has that image uploaded.
     */
    method FrameUniforms(time: real) returns (result: map<string, FrameValue>)
      requires Valid()
      modifies this, Uniforms()
      ensures Valid() && state == old(state) && uniformNames == old(uniformNames) && uniformOf == old(uniformOf)
      ensures bound == old(bound)
      ensures result.Keys == set n | n in uniformNames
      ensures forall n :: n in uniformNames && uniformOf[n].kind.PlainKind? ==> result[n] == Sv(Lookup(state, n))
      ensures forall n :: n in uniformNames && uniformOf[n].kind.TextureKind? ==> n in textureMap && result[n] == Tex(textureMap[n])
      ensures forall n :: n in uniformNames ==> !uniformOf[n].Dirty()
      ensures forall n :: n in textureMap ==> (n in old(textureMap) && textureMap[n] == old(textureMap)[n]) || n in uniformNames
      ensures |old(uploads)| <= |uploads| && uploads[..|old(uploads)|] == old(uploads)
      ensures UniformsDistinct() ==>
        forall n :: n in uniformNames && uniformOf[n].kind.TextureKind? && old(uniformOf[n].dirty) && Lookup(state, n).Image? ==>
          Upload(textureMap[n], Lookup(state, n).image) in uploads
    {
      var snapshot := state;
      var names := uniformNames;
      ghost var was := map n | n in uniformOf :: uniformOf[n].dirty;
      result := map[];
      ghost var seen: set<string> := {};
      ghost var distinct := UniformsDistinct();
      var i := 0;
      while i < |names|
        invariant 0 <= i <= |names| && Valid()
        invariant names == uniformNames && state == snapshot
        invariant state == old(state) && uniformNames == old(uniformNames) && uniformOf == old(uniformOf)
        invariant bound == old(bound)
        invariant forall n :: n in result <==> n in seen
        invariant forall k :: 0 <= k < i ==> names[k] in seen
        invariant forall n :: n in seen ==> n in names
        invariant forall n :: n in seen && uniformOf[n].kind.PlainKind? ==> result[n] == Sv(Lookup(state, n))
        invariant forall n :: n in seen && uniformOf[n].kind.TextureKind? ==> n in textureMap && result[n] == Tex(textureMap[n])
        invariant forall n :: n in seen ==> !uniformOf[n].Dirty()
        invariant forall n :: n in textureMap ==> (n in old(textureMap) && textureMap[n] == old(textureMap)[n]) || n in names
        invariant |old(uploads)| <= |uploads| && uploads[..|old(uploads)|] == old(uploads)
        invariant distinct ==> forall n :: n in uniformOf && n !in seen ==> uniformOf[n].dirty == was[n]
        invariant distinct ==>
          forall n :: n in seen && uniformOf[n].kind.TextureKind? && was[n] && Lookup(state, n).Image? ==>
            Upload(textureMap[n], Lookup(state, n).image) in uploads
      {
        var name := names[i];
        ghost var cache, next, ups, wasDirty := textureMap, nextTexture, uploads, uniformOf[name].dirty;
        var v := SampleUniform(name, snapshot, time);
        result := result[name := v];
        ghost var before := seen;
        seen := seen + {name};
        if distinct {
          assert name !in before ==> wasDirty == was[name];
          forall n | n in uniformOf && n !in seen
            ensures uniformOf[n].dirty == was[n]
          {
            assert uniformOf[n] != uniformOf[name];
          }
          forall n | n in seen && uniformOf[n].kind.TextureKind? && was[n] && Lookup(state, n).Image?
            ensures Upload(textureMap[n], Lookup(state, n).image) in uploads
          {
            if n != name || name in before {
              assert Upload(cache[n], Lookup(state, n).image) in ups;
            }
          }
        }
        i := i + 1;
      }
      assert forall n :: n in names ==> n in seen;
    }

    /** One step of `getUniformsForFrame`: the frame value of the uniform recorded under `name`. */
    method SampleUniform(name: string, snapshot: map<string, StateValue>, time: real) returns (v: FrameValue)
      requires Valid() && name in uniformOf
      modifies this, uniformOf[name]
      ensures Valid() && state == old(state) && uniformNames == old(uniformNames) && uniformOf == old(uniformOf)
      ensures bound == old(bound) && !uniformOf[name].Dirty()
      ensures uniformOf[name].kind.PlainKind? ==> v == Sv(Lookup(snapshot, name))
      ensures uniformOf[name].kind.TextureKind? ==>
        CacheStep(old(textureMap), old(nextTexture), old(uploads), name, ImageOf(Lookup(snapshot, name)), old(uniformOf[name].dirty))
        && v == Tex(textureMap[name])
      ensures !uniformOf[name].kind.TextureKind? ==> textureMap == old(textureMap) && nextTexture == old(nextTexture) && uploads == old(uploads)
      ensures forall n :: n in uniformOf && uniformOf[n] != uniformOf[name] ==> uniformOf[n].dirty == old(uniformOf[n].dirty)
    {
      var u := uniformOf[name];
      v := u.GetValueForFrame(snapshot, time, this, name);
    }

    /**
     * `unmount`: stop the frame loop, destroy every cached texture and
     * empty the cache, destroy the default texture and the context. A
     * second call finds nothing left to destroy.
     */
    method Unmount()
      requires Valid()
      modifies this
      ensures Valid()
      ensures !frameLoop && textureMap == map[] && !hasDefaultTex && !running
      ensures destroyed == old(destroyed) + old(textureMap).Values
      ensures glDestroyed == old(glDestroyed) + (if old(running) then 1 else 0)
      ensures state == old(state) && listeners == old(listeners) && bound == old(bound) && uniformNames == old(uniformNames)
    {
      if frameLoop {
        frameLoop := false;
      }
      destroyed := destroyed + textureMap.Values;
      textureMap := map[];
      if hasDefaultTex {
        hasDefaultTex := false;
      }
      if running {
        glDestroyed := glDestroyed + 1;
        running := false;
      }
    }
  }

  /** No listener occurs twice. */
  predicate Distinct(ls: seq<Listener>) {
    forall i, j :: 0 <= i < j < |ls| ==> ls[i] != ls[j]
  }

  /** Removing a listener keeps the rest free of repeats. */
  lemma {:induction false} WithoutKeepsDistinct(ls: seq<Listener>, l: Listener)
    requires Distinct(ls)
    ensures Distinct(ParamStore.Without(ls, l))
  {
    if ls != [] {
      var tail := ls[1..];
      assert Distinct(tail) by {
        forall i, j | 0 <= i < j < |tail|
          ensures tail[i] != tail[j]
        {
          assert tail[i] == ls[i + 1] && tail[j] == ls[j + 1];
        }
      }
      WithoutKeepsDistinct(tail, l);
      var rest := ParamStore.Without(tail, l);
      if ls[0] != l {
        assert ls[0] !in tail by {
          forall k | 0 <= k < |tail|
            ensures tail[k] != ls[0]
          {
            assert tail[k] == ls[k + 1];
          }
        }
        var r := [ls[0]] + rest;
        forall i, j | 0 <= i < j < |r|
          ensures r[i] != r[j]
        {
          if i == 0 {
            assert r[j] in rest;
          } else {
            assert r[i] == rest[i - 1] && r[j] == rest[j - 1];
          }
        }
        assert ParamStore.Without(ls, l) == r;
      }
    }
  }

  /** Merging a partial state: its keys take its values, every other key is untouched. */
  lemma SetStateMerges(state: map<string, StateValue>, partial: map<string, StateValue>, k: string)
    ensures k in partial ==> Lookup(state + partial, k) == partial[k]
    ensures k !in partial ==> Lookup(state + partial, k) == Lookup(state, k)
  {}

  /**
   * Subscribing a new listener and calling the returned function restores
   * the listener set; calling the function of a repeated subscription drops
   * the listener altogether.
   */
  lemma SubscribeRoundTrip(ls: seq<Listener>, l: Listener)
    ensures l !in ls ==> ParamStore.Without(ls + [l], l) == ls
    ensures l in ls ==> l !in ParamStore.Without(ls, l)
  {
    if l !in ls {
      ParamStore.WithoutAppend(ls, [l], l);
      ParamStore.WithoutAbsent(ls, l);
      assert ParamStore.Without([l], l) == [];
    }
  }
}
