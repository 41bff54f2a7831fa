/**
 * The per-image hover controller of src/lib/webgl-hover/WebglHover.ts.
 *
 * The renderer's plane is its uniform record (`None` once `destroy` has
 * removed it). The tween engine is one pending request on the four driven
 * uniforms: a new request replaces the pending one (`overwrite: true`), and
 * `AfterTweenComplete` is the moment the engine finishes it, writing the targets
 * and running the request's on-complete action. Easing and the in-between
 * values are not modelled.
 *
 * The transitions are first given as functions on `State`; the class
 * `WebglHover` then updates its fields step by step and each method is
 * proved to produce the state the matching function gives.
 */
module Hover {
  import opened Wrappers
  import opened Utils
  import opened Config

  /** The uniforms the plane is created with (`params.uniforms`). */
  datatype Uniforms = Uniforms(
    time: real,
    mousepos: Vec2,
    resolution: Vec2,
    progress: real,
    displacement: Vec2,
    zoom: real,
    rotation: real,
    noiseSpeed: real,
    noiseScale: real,
    rgbShift: real,
    tex1Scale: Option<Vec2>)

  /** Values of the four uniforms the hover animation drives. */
  datatype Targets = Targets(progress: real, zoom: real, rotation: real, rgbShift: real)

  /**
   * A pending request to the tween engine: one target per driven uniform,
   * the duration and easing name, and whether its on-complete action clears
   * `isAnimating` (only the mouse-out request has one).
   */
  datatype Tween = Tween(targets: Targets, duration: real, ease: string, clearsAnimating: bool)

  /** The parameter fields of the controller; `imageRotation` is in radians. */
  datatype Settings = Settings(
    durationIn: real,
    durationOut: real,
    easeIn: string,
    easeOut: string,
    zoom: real,
    imageRotation: real,
    noiseSpeed: real,
    noiseScale: real,
    rgbShiftIntensity: real,
    intensity: real,
    displacementAngle: real)

  /**
   * The controller with its plane and its pending tween. `ready` records that
   * the plane's ready notification has fired, which is when the render loop
   * starts and the mouse listeners are bound.
   */
  datatype State = State(
    settings: Settings,
    hoverEnabled: bool,
    isAnimating: bool,
    ready: bool,
    plane: Option<Uniforms>,
    pending: Option<Tween>)

  /** What each animating frame adds to `time`. */
  const TIME_STEP: real := 0.01

  /** The rest values: no progress, no extra zoom, no rotation, no shift. */
  const REST: Targets := Targets(0.0, 1.0, 0.0, 0.0)

  /** The values the mouse-enter tweens head for. */
  function HoverTargets(st: Settings): Targets
  {
    Targets(1.0, 1.0 + st.zoom, st.imageRotation, st.rgbShiftIntensity)
  }

  /** The driven values at progress `p`, as `setProgress` writes them. */
  function TargetsAt(st: Settings, p: real): Targets
  {
    Targets(p, 1.0 + st.zoom * p, st.imageRotation * p, st.rgbShiftIntensity * p)
  }

  /** The manual scrub meets the tweens at both ends: rest at 0, hover at 1. */
  lemma TargetsAtEnds(st: Settings)
    ensures TargetsAt(st, 0.0) == REST
    ensures TargetsAt(st, 1.0) == HoverTargets(st)
  {
  }

  function Driven(u: Uniforms): Targets
  {
    Targets(u.progress, u.zoom, u.rotation, u.rgbShift)
  }

  function WithTargets(u: Uniforms, t: Targets): (r: Uniforms)
    ensures Driven(r) == t
  {
    u.(progress := t.progress, zoom := t.zoom, rotation := t.rotation, rgbShift := t.rgbShift)
  }

  /** The render loop runs and the listeners are bound: ready and not destroyed. */
  predicate Live(s: State)
  {
    s.ready && s.plane.Some?
  }

  // ---------------------------------------------------------------------
  // Transitions
  // ---------------------------------------------------------------------

  /** The constructor: parameters copied (rotation in radians), uniforms at rest. */
  function InitialState(o: HoverOptions, trig: Trig, viewport: Vec2): State
  {
    var st := Settings(o.durationIn, o.durationOut, o.easeIn, o.easeOut, o.zoom,
                       DegreesToRadians(o.imageRotation), o.noiseSpeed, o.noiseScale,
                       o.rgbShiftIntensity, o.intensity, o.displacementAngle);
    var u := Uniforms(
      time := 0.0,
      mousepos := Vec2(0.0, 0.0),
      resolution := viewport,
      progress := 0.0,
      displacement := DisplacementVector(trig, o.intensity, o.displacementAngle),
      zoom := 1.0,
      rotation := 0.0,
      noiseSpeed := o.noiseSpeed,
      noiseScale := o.noiseScale,
      rgbShift := 0.0,
      tex1Scale := o.tex1Scale);
    State(st, true, false, false, Some(u), None)
  }

  /** The plane's ready notification: start rendering, bind the listeners. */
  function AfterReady(s: State): State
  {
    if s.plane.Some? then s.(ready := true) else s
  }

  /** A mouseenter on the plane element (it reaches the handler only while bound). */
  function AfterMouseEnter(s: State): State
  {
    if !Live(s) || !s.hoverEnabled then s
    else
      var st := s.settings;
      s.(isAnimating := true,
         pending := Some(Tween(HoverTargets(st), st.durationIn, st.easeIn, false)))
  }

  /** A mouseout on the plane element: tween back to rest, then stop animating. */
  function AfterMouseOut(s: State): State
  {
    if !Live(s) || !s.hoverEnabled then s
    else
      var st := s.settings;
      s.(pending := Some(Tween(REST, st.durationOut, st.easeOut, true)))
  }

  /** One frame of the render loop. */
  function AfterRender(s: State): State
  {
    if Live(s) && s.isAnimating then
      s.(plane := Some(s.plane.value.(time := s.plane.value.time + TIME_STEP)))
    else s
  }

  /**
   * The tween engine finishes the pending request. Its writes land on the
   * plane's uniforms; after `destroy` they land on the removed plane, which
   * nothing reads. The on-complete action runs either way.
   */
  function AfterTweenComplete(s: State): State
  {
    match s.pending
    case None => s
    case Some(t) =>
      s.(plane := if s.plane.Some? then Some(WithTargets(s.plane.value, t.targets)) else None,
         isAnimating := if t.clearsAnimating then false else s.isAnimating,
         pending := None)
  }

  /** `setProgress`: the driven uniforms as linear functions of `p`; no tween is cancelled. */
  function AfterSetProgress(s: State, p: real): State
  {
    if s.plane.None? then s
    else
      s.(isAnimating := p > 0.0,
         plane := Some(WithTargets(s.plane.value, TargetsAt(s.settings, p))))
  }

  /** `setHoverEnabled`. */
  function AfterSetHoverEnabled(s: State, enabled: bool): State
  {
    s.(hoverEnabled := enabled)
  }

  /** `resize`: the viewport size becomes the resolution uniform. */
  function AfterResize(s: State, viewport: Vec2): State
  {
    if s.plane.None? then s
    else s.(plane := Some(s.plane.value.(resolution := viewport)))
  }

  /** `destroy`: listeners unbound and the plane removed. */
  function AfterDestroy(s: State): State
  {
    s.(plane := None)
  }

  /** `getConfig`: every parameter, the rotation back in degrees. */
  function ConfigOf(s: State): PartialOptions
  {
    var st := s.settings;
    PartialOptions(
      durationIn := Some(st.durationIn),
      durationOut := Some(st.durationOut),
      easeIn := Some(st.easeIn),
      easeOut := Some(st.easeOut),
      zoom := Some(st.zoom),
      imageRotation := Some(RadiansToDegrees(st.imageRotation)),
      noiseSpeed := Some(st.noiseSpeed),
      noiseScale := Some(st.noiseScale),
      rgbShiftIntensity := Some(st.rgbShiftIntensity),
      intensity := Some(st.intensity),
      displacementAngle := Some(st.displacementAngle))
  }

  /** The parameters `updateConfig` sets whether or not a plane exists. */
  function WithSuppliedParams(st: Settings, c: PartialOptions): Settings
  {
    st.(
      durationIn := c.durationIn.GetOr(st.durationIn),
      durationOut := c.durationOut.GetOr(st.durationOut),
      easeIn := c.easeIn.GetOr(st.easeIn),
      easeOut := c.easeOut.GetOr(st.easeOut),
      zoom := c.zoom.GetOr(st.zoom),
      imageRotation := if c.imageRotation.Some? then DegreesToRadians(c.imageRotation.value) else st.imageRotation,
      rgbShiftIntensity := c.rgbShiftIntensity.GetOr(st.rgbShiftIntensity),
      intensity := c.intensity.GetOr(st.intensity),
      displacementAngle := c.displacementAngle.GetOr(st.displacementAngle))
  }

  /**
   * `updateConfig`: the supplied fields replace the stored ones; the noise
   * fields and the uniforms change only while a plane exists, and then the
   * displacement uniform is recomputed.
   */
  function AfterUpdateConfig(s: State, c: PartialOptions, trig: Trig): State
  {
    var st1 := WithSuppliedParams(s.settings, c);
    match s.plane
    case None => s.(settings := st1)
    case Some(u) =>
      var st2 := st1.(noiseSpeed := c.noiseSpeed.GetOr(st1.noiseSpeed),
                      noiseScale := c.noiseScale.GetOr(st1.noiseScale));
      var u1 := u.(
        noiseSpeed := if c.noiseSpeed.Some? then st2.noiseSpeed else u.noiseSpeed,
        noiseScale := if c.noiseScale.Some? then st2.noiseScale else u.noiseScale,
        displacement := DisplacementVector(trig, st2.intensity, st2.displacementAngle));
      s.(settings := st2, plane := Some(u1))
  }

  /**
   * What the controller keeps true: the displacement uniform is the vector of
   * the current intensity and angle, the noise uniforms mirror the noise
   * parameters, and a pending mouse-out tween heads for rest.
   */
  ghost predicate Inv(s: State, trig: Trig)
  {
    && (s.plane.Some? ==>
          && s.plane.value.displacement == DisplacementVector(trig, s.settings.intensity, s.settings.displacementAngle)
          && s.plane.value.noiseSpeed == s.settings.noiseSpeed
          && s.plane.value.noiseScale == s.settings.noiseScale)
    && (s.pending.Some? && s.pending.value.clearsAnimating ==> s.pending.value.targets == REST)
  }

  // ---------------------------------------------------------------------
  // Runs of events
  // ---------------------------------------------------------------------

  /** Everything that can happen to a controller, in the order it happens. */
  datatype Event =
    | PlaneReady
    | MouseEnter
    | MouseOut
    | Frame
    | TweenDone
    | Scrub(progress: real)
    | Enable(enabled: bool)
    | Reconfigure(config: PartialOptions)
    | ViewportResize(viewport: Vec2)
    | Dispose

  function Step(s: State, e: Event, trig: Trig): State
  {
    match e
    case PlaneReady => AfterReady(s)
    case MouseEnter => AfterMouseEnter(s)
    case MouseOut => AfterMouseOut(s)
    case Frame => AfterRender(s)
    case TweenDone => AfterTweenComplete(s)
    case Scrub(p) => AfterSetProgress(s, p)
    case Enable(b) => AfterSetHoverEnabled(s, b)
    case Reconfigure(c) => AfterUpdateConfig(s, c, trig)
    case ViewportResize(v) => AfterResize(s, v)
    case Dispose => AfterDestroy(s)
  }

  function Run(s: State, events: seq<Event>, trig: Trig): State
    decreases |events|
  {
    if events == [] then s else Run(Step(s, events[0], trig), events[1..], trig)
  }

  // ---------------------------------------------------------------------
  // Properties
  // ---------------------------------------------------------------------

  /** A new controller is enabled, idle, at rest, with time 0 and its displacement vector. */
  lemma InitialIsRest(o: HoverOptions, trig: Trig, viewport: Vec2)
    ensures var s := InitialState(o, trig, viewport);
      && Inv(s, trig)
      && s.hoverEnabled && !s.isAnimating && !Live(s) && s.pending.None?
      && s.plane.Some? && Driven(s.plane.value) == REST && s.plane.value.time == 0.0
      && s.plane.value.displacement == DisplacementVector(trig, o.intensity, o.displacementAngle)
      && s.plane.value.tex1Scale == o.tex1Scale
      && RadiansToDegrees(s.settings.imageRotation) == o.imageRotation
  {
  }

  /** With the default options the hover-in zoom target is 1.1 and the shift target 0. */
  lemma DefaultHoverTargets(trig: Trig, viewport: Vec2, scale: Option<Vec2>)
    ensures var d := DEFAULT_CONFIG;
      var o := HoverOptions(d.durationIn, d.durationOut, d.easeIn, d.easeOut, d.intensity,
                            d.displacementAngle, d.zoom, d.imageRotation, d.noiseSpeed,
                            d.noiseScale, d.rgbShiftIntensity, scale);
      HoverTargets(InitialState(o, trig, viewport).settings) == Targets(1.0, 1.1, 0.0, 0.0)
  {
  }

  /** Every transition keeps the invariant. */
  lemma StepKeepsInv(s: State, e: Event, trig: Trig)
    requires Inv(s, trig)
    ensures Inv(Step(s, e, trig), trig)
  {
  }

  lemma {:induction false} RunKeepsInv(s: State, events: seq<Event>, trig: Trig)
    requires Inv(s, trig)
    ensures Inv(Run(s, events, trig), trig)
    decreases |events|
  {
    if events != [] {
      StepKeepsInv(s, events[0], trig);
      RunKeepsInv(Step(s, events[0], trig), events[1..], trig);
    }
  }

  /** While disabled, pointer events change nothing; enabling touches only the flag. */
  lemma DisabledIgnoresPointer(s: State, enabled: bool)
    ensures var d := AfterSetHoverEnabled(s, false);
      AfterMouseEnter(d) == d && AfterMouseOut(d) == d
    ensures AfterSetHoverEnabled(s, enabled) == s.(hoverEnabled := enabled)
  {
  }

  /** Mouse enter starts animating and requests the hover targets with the "in" timing. */
  lemma MouseEnterRequestsHover(s: State)
    requires Live(s) && s.hoverEnabled
    ensures var t := AfterMouseEnter(s);
      && t.isAnimating && t.plane == s.plane
      && t.pending == Some(Tween(HoverTargets(s.settings), s.settings.durationIn, s.settings.easeIn, false))
  {
  }

  /** Mouse out requests the rest values with the "out" timing and leaves the flag alone. */
  lemma MouseOutRequestsRest(s: State)
    requires Live(s) && s.hoverEnabled
    ensures var t := AfterMouseOut(s);
      && t.isAnimating == s.isAnimating && t.plane == s.plane
      && t.pending == Some(Tween(REST, s.settings.durationOut, s.settings.easeOut, true))
  {
  }

  /**
   * Enter then out before the enter tween finishes: only the exit request is
   * left, and its completion returns the plane to rest and stops animating.
   */
  lemma EnterThenOut(s: State)
    requires Live(s) && s.hoverEnabled
    ensures var t := AfterMouseOut(AfterMouseEnter(s));
      && t.pending == Some(Tween(REST, s.settings.durationOut, s.settings.easeOut, true))
      && var done := AfterTweenComplete(t);
         !done.isAnimating && Driven(done.plane.value) == REST && done.pending.None?
  {
  }

  /**
   * Out then enter: the exit request is superseded, so its on-complete never
   * runs; the completion reaches the hover values and keeps animating.
   */
  lemma OutThenEnterKeepsAnimating(s: State)
    requires Live(s) && s.hoverEnabled
    ensures var t := AfterMouseEnter(AfterMouseOut(s));
      && t.isAnimating
      && var done := AfterTweenComplete(t);
         done.isAnimating && Driven(done.plane.value) == HoverTargets(s.settings)
  {
  }

  /**
   * Only two things turn animation off: the completion of a mouse-out tween
   * and a manual progress that is not positive.
   */
  lemma OnlyExitOrScrubStopsAnimating(s: State, e: Event, trig: Trig)
    requires s.isAnimating && !Step(s, e, trig).isAnimating
    ensures || (e == TweenDone && s.pending.Some? && s.pending.value.clearsAnimating)
            || (e.Scrub? && e.progress <= 0.0)
  {
  }

  /** A frame adds exactly one step to `time` iff animating and changes nothing else. */
  lemma RenderTicksTime(s: State)
    requires Live(s)
    ensures var t := AfterRender(s);
      && t.plane.Some?
      && t.plane.value.time == (if s.isAnimating then s.plane.value.time + TIME_STEP else s.plane.value.time)
      && t.plane.value.(time := 0.0) == s.plane.value.(time := 0.0)
      && t.(plane := None) == s.(plane := None)
  {
  }

  /** Time only grows, whatever happens, as long as the plane exists. */
  lemma StepTimeGrows(s: State, e: Event, trig: Trig)
    ensures Step(s, e, trig).plane.Some? ==> s.plane.Some?
    ensures Step(s, e, trig).plane.Some? ==> Step(s, e, trig).plane.value.time >= s.plane.value.time
    ensures e != Frame && Step(s, e, trig).plane.Some? ==> Step(s, e, trig).plane.value.time == s.plane.value.time
  {
  }

  lemma {:induction false} RunTimeGrows(s: State, events: seq<Event>, trig: Trig)
    ensures Run(s, events, trig).plane.Some? ==> s.plane.Some?
    ensures Run(s, events, trig).plane.Some? ==> Run(s, events, trig).plane.value.time >= s.plane.value.time
    decreases |events|
  {
    if events != [] {
      var s1 := Step(s, events[0], trig);
      StepTimeGrows(s, events[0], trig);
      RunTimeGrows(s1, events[1..], trig);
    }
  }

  /** After `destroy` no event brings a plane back, so no uniform is written again. */
  lemma {:induction false} DestroyIsFinal(s: State, events: seq<Event>, trig: Trig)
    ensures Run(AfterDestroy(s), events, trig).plane.None?
    ensures !Live(Run(AfterDestroy(s), events, trig))
  {
    RunTimeGrows(AfterDestroy(s), events, trig);
  }

  /** After `destroy`, `setProgress`, `resize` and pointer events are no-ops. */
  lemma DestroyedIsInert(s: State, p: real, v: Vec2)
    ensures var d := AfterDestroy(s);
      && AfterSetProgress(d, p) == d && AfterResize(d, v) == d
      && AfterMouseEnter(d) == d && AfterMouseOut(d) == d && AfterRender(d) == d
  {
  }

  /** `setProgress(p)` puts the driven uniforms on the line of `p` and animates iff `p > 0`. */
  lemma SetProgressIsLinear(s: State, p: real)
    requires s.plane.Some?
    ensures var t := AfterSetProgress(s, p);
      && Driven(t.plane.value) == TargetsAt(s.settings, p)
      && t.isAnimating == (p > 0.0)
      && t.pending == s.pending && t.settings == s.settings && t.hoverEnabled == s.hoverEnabled
    ensures Driven(AfterSetProgress(s, 0.0).plane.value) == REST
  {
  }

  /** A sequence of manual progress values. */
  function Scrub(s: State, ps: seq<real>): State
    decreases |ps|
  {
    if ps == [] then s else Scrub(AfterSetProgress(s, ps[0]), ps[1..])
  }

  /** After any scrubbing, the uniforms are exactly the linear values of the last progress. */
  lemma {:induction false} ScrubLastWins(s: State, ps: seq<real>)
    requires s.plane.Some? && ps != []
    ensures var t := Scrub(s, ps);
      && t.plane.Some?
      && Driven(t.plane.value) == TargetsAt(s.settings, ps[|ps| - 1])
      && t.isAnimating == (ps[|ps| - 1] > 0.0)
      && t.settings == s.settings && t.pending == s.pending
    decreases |ps|
  {
    if |ps| > 1 {
      ScrubLastWins(AfterSetProgress(s, ps[0]), ps[1..]);
    }
  }

  /**
   * `setProgress` does not cancel a running tween: after mouse enter, a
   * manual 0 is overridden when the enter tween completes, which leaves the
   * hover values on the plane with animation off.
   */
  lemma SetProgressDoesNotCancel(s: State)
    requires Live(s) && s.hoverEnabled
    ensures var t := AfterTweenComplete(AfterSetProgress(AfterMouseEnter(s), 0.0));
      Driven(t.plane.value) == HoverTargets(s.settings) && !t.isAnimating
  {
  }

  /**
   * `updateConfig` with an empty update changes nothing, and with the
   * controller's own `getConfig` neither (the rotation goes to degrees and back).
   */
  lemma UpdateWithNothingOrOwnConfig(s: State, trig: Trig)
    requires Inv(s, trig)
    ensures AfterUpdateConfig(s, NO_CHANGES, trig) == s
    ensures AfterUpdateConfig(s, ConfigOf(s), trig) == s
  {
    RadiansRoundTrip(s.settings.imageRotation);
  }

  /**
   * `updateConfig` changes only what it is given: the flags, the pending tween
   * and the driven uniforms stay; the displacement uniform follows the new
   * intensity and angle; the noise fields move only when a plane exists.
   */
  lemma UpdateConfigTouchesOnlySupplied(s: State, c: PartialOptions, trig: Trig)
    ensures var t := AfterUpdateConfig(s, c, trig);
      && t.hoverEnabled == s.hoverEnabled && t.isAnimating == s.isAnimating
      && t.ready == s.ready && t.pending == s.pending
      && t.plane.Some? == s.plane.Some?
      && (s.plane.Some? ==>
            && Driven(t.plane.value) == Driven(s.plane.value)
            && t.plane.value.time == s.plane.value.time
            && t.plane.value.displacement
               == DisplacementVector(trig, t.settings.intensity, t.settings.displacementAngle))
      && (c.intensity.None? ==> t.settings.intensity == s.settings.intensity)
      && (c.displacementAngle.None? ==> t.settings.displacementAngle == s.settings.displacementAngle)
      && (c.imageRotation.Some? ==> RadiansToDegrees(t.settings.imageRotation) == c.imageRotation.value)
      && (s.plane.None? ==> t.settings.noiseSpeed == s.settings.noiseSpeed
                            && t.settings.noiseScale == s.settings.noiseScale)
    // each parameter: the supplied value if any, else the old one
    ensures var t := AfterUpdateConfig(s, c, trig);
      && t.settings.durationIn == c.durationIn.GetOr(s.settings.durationIn)
      && t.settings.durationOut == c.durationOut.GetOr(s.settings.durationOut)
      && t.settings.easeIn == c.easeIn.GetOr(s.settings.easeIn)
      && t.settings.easeOut == c.easeOut.GetOr(s.settings.easeOut)
      && t.settings.zoom == c.zoom.GetOr(s.settings.zoom)
      && t.settings.imageRotation
         == (if c.imageRotation.Some? then DegreesToRadians(c.imageRotation.value) else s.settings.imageRotation)
      && t.settings.rgbShiftIntensity == c.rgbShiftIntensity.GetOr(s.settings.rgbShiftIntensity)
      && t.settings.intensity == c.intensity.GetOr(s.settings.intensity)
      && t.settings.displacementAngle == c.displacementAngle.GetOr(s.settings.displacementAngle)
      && t.settings.noiseSpeed
         == (if s.plane.Some? then c.noiseSpeed.GetOr(s.settings.noiseSpeed) else s.settings.noiseSpeed)
      && t.settings.noiseScale
         == (if s.plane.Some? then c.noiseScale.GetOr(s.settings.noiseScale) else s.settings.noiseScale)
    // with a plane, the noise uniforms follow the supplied values and no other uniform but the displacement moves
    ensures var t := AfterUpdateConfig(s, c, trig);
      s.plane.Some? ==>
        && t.plane.value.noiseSpeed == c.noiseSpeed.GetOr(s.plane.value.noiseSpeed)
        && t.plane.value.noiseScale == c.noiseScale.GetOr(s.plane.value.noiseScale)
        && t.plane.value.(displacement := s.plane.value.displacement,
                          noiseSpeed := s.plane.value.noiseSpeed,
                          noiseScale := s.plane.value.noiseScale) == s.plane.value
  {
  }

  // ---------------------------------------------------------------------
  // The controller object
  // ---------------------------------------------------------------------

  class WebglHover {
    /** The `Math.cos`/`Math.sin` the displacement vector uses. */
    const trig: Trig

    /** The parameter fields (`durationIn` … `displacementAngle`), kept as one record. */
    var settings: Settings
    var hoverEnabled: bool
    var isAnimating: bool
    /** Set once the plane's ready callback has run. */
    var ready: bool
    /** The plane's uniforms; `None` after `destroy`. */
    var plane: Option<Uniforms>
    /** The tween engine's pending request on this plane's uniforms. */
    var pending: Option<Tween>

    ghost function Model(): State
      reads this
    {
      State(settings, hoverEnabled, isAnimating, ready, plane, pending)
    }

    ghost predicate Valid()
      reads this
    {
      Inv(Model(), trig)
    }

    constructor(options: HoverOptions, trig: Trig, viewport: Vec2)
      ensures this.trig == trig
      ensures Valid() && Model() == InitialState(options, trig, viewport)
    {
      this.trig := trig;
      settings := Settings(
        durationIn := options.durationIn,
        durationOut := options.durationOut,
        easeIn := options.easeIn,
        easeOut := options.easeOut,
        zoom := options.zoom,
        imageRotation := DegreesToRadians(options.imageRotation),
        noiseSpeed := options.noiseSpeed,
        noiseScale := options.noiseScale,
        rgbShiftIntensity := options.rgbShiftIntensity,
        intensity := options.intensity,
        displacementAngle := options.displacementAngle);
      hoverEnabled := true;
      isAnimating := false;
      ready := false;
      var displacement := DisplacementVector(trig, options.intensity, options.displacementAngle);
      plane := Some(Uniforms(
        time := 0.0,
        mousepos := Vec2(0.0, 0.0),
        resolution := viewport,
        progress := 0.0,
        displacement := displacement,
        zoom := 1.0,
        rotation := 0.0,
        noiseSpeed := options.noiseSpeed,
        noiseScale := options.noiseScale,
        rgbShift := 0.0,
        tex1Scale := options.tex1Scale));
      pending := None;
    }

    /** The plane's ready callback: the render loop starts and the listeners are bound. */
    method OnReady()
      requires Valid()
      modifies this
      ensures Valid() && Model() == AfterReady(old(Model()))
    {
      if plane.Some? {
        ready := true;
      }
    }

    /** `handleMouseEnter`, as delivered by the bound mouseenter listener. */
    method HandleMouseEnter()
      requires Valid()
      modifies this
      ensures Valid() && Model() == AfterMouseEnter(old(Model()))
    {
      if !(ready && plane.Some?) {
        return;  // no listener is bound
      }
      if !hoverEnabled {
        return;
      }
      isAnimating := true;
      pending := Some(Tween(HoverTargets(settings), settings.durationIn, settings.easeIn, false));
    }

    /** `handleMouseOut`, as delivered by the bound mouseout listener. */
    method HandleMouseOut()
      requires Valid()
      modifies this
      ensures Valid() && Model() == AfterMouseOut(old(Model()))
    {
      if !(ready && plane.Some?) {
        return;  // no listener is bound
      }
      if !hoverEnabled {
        return;
      }
      pending := Some(Tween(REST, settings.durationOut, settings.easeOut, true));
    }

    /** The render callback registered in `startRenderLoop`. */
    method Render()
      requires Valid()
      modifies this
      ensures Valid() && Model() == AfterRender(old(Model()))
    {
      if ready && plane.Some? && isAnimating {
        var u := plane.value;
        plane := Some(u.(time := u.time + TIME_STEP));
      }
    }

    /** The tween engine completes the pending request and runs its on-complete. */
    method CompleteTween()
      requires Valid()
      modifies this
      ensures Valid() && Model() == AfterTweenComplete(old(Model()))
    {
      if pending.Some? {
        var t := pending.value;
        if plane.Some? {
          var u := plane.value;
          plane := Some(u.(progress := t.targets.progress, zoom := t.targets.zoom,
                           rotation := t.targets.rotation, rgbShift := t.targets.rgbShift));
        }
        if t.clearsAnimating {
          isAnimating := false;
        }
        pending := None;
      }
    }

    /** `resize`, with the window's inner size passed in. */
    method Resize(viewport: Vec2)
      requires Valid()
      modifies this
      ensures Valid() && Model() == AfterResize(old(Model()), viewport)
    {
      if plane.Some? {
        plane := Some(plane.value.(resolution := viewport));
      }
    }

    /** `setProgress`. */
    method SetProgress(progress: real)
      requires Valid()
      modifies this
      ensures Valid() && Model() == AfterSetProgress(old(Model()), progress)
    {
      if plane.None? {
        return;
      }
      isAnimating := progress > 0.0;
      var u := plane.value;
      plane := Some(u.(progress := progress,
                       zoom := 1.0 + settings.zoom * progress,
                       rotation := settings.imageRotation * progress,
                       rgbShift := settings.rgbShiftIntensity * progress));
      assert plane.value == WithTargets(old(plane).value, TargetsAt(settings, progress));
    }

    /** `setHoverEnabled`. */
    method SetHoverEnabled(enabled: bool)
      requires Valid()
      modifies this
      ensures Valid() && Model() == AfterSetHoverEnabled(old(Model()), enabled)
    {
      hoverEnabled := enabled;
    }

    /** `destroy`: unbinding the listeners is implied by the plane being gone. */
    method Destroy()
      requires Valid()
      modifies this
      ensures Valid() && Model() == AfterDestroy(old(Model()))
    {
      if plane.Some? {
        plane := None;
      }
    }

    /** `getConfig`. */
    function GetConfig(): (c: PartialOptions)
      reads this
      ensures c == ConfigOf(Model())
    {
      PartialOptions(
        durationIn := Some(settings.durationIn),
        durationOut := Some(settings.durationOut),
        easeIn := Some(settings.easeIn),
        easeOut := Some(settings.easeOut),
        zoom := Some(settings.zoom),
        imageRotation := Some(RadiansToDegrees(settings.imageRotation)),
        noiseSpeed := Some(settings.noiseSpeed),
        noiseScale := Some(settings.noiseScale),
        rgbShiftIntensity := Some(settings.rgbShiftIntensity),
        intensity := Some(settings.intensity),
        displacementAngle := Some(settings.displacementAngle))
    }

    /** `updateConfig`. */
    method UpdateConfig(config: PartialOptions)
      requires Valid()
      modifies this
      ensures Valid() && Model() == AfterUpdateConfig(old(Model()), config, trig)
    {
      var st := settings;
      st := st.(durationIn := config.durationIn.GetOr(st.durationIn));
      st := st.(durationOut := config.durationOut.GetOr(st.durationOut));
      st := st.(easeIn := config.easeIn.GetOr(st.easeIn));
      st := st.(easeOut := config.easeOut.GetOr(st.easeOut));
      st := st.(zoom := config.zoom.GetOr(st.zoom));
      if config.imageRotation.Some? {
        st := st.(imageRotation := DegreesToRadians(config.imageRotation.value));
      }
      st := st.(rgbShiftIntensity := config.rgbShiftIntensity.GetOr(st.rgbShiftIntensity));
      st := st.(intensity := config.intensity.GetOr(st.intensity));
      st := st.(displacementAngle := config.displacementAngle.GetOr(st.displacementAngle));

      if plane.Some? {
        var u := plane.value;
        if config.noiseSpeed.Some? {
          st := st.(noiseSpeed := config.noiseSpeed.value);
          u := u.(noiseSpeed := st.noiseSpeed);
        }
        if config.noiseScale.Some? {
          st := st.(noiseScale := config.noiseScale.value);
          u := u.(noiseScale := st.noiseScale);
        }
        u := u.(displacement := DisplacementVector(trig, st.intensity, st.displacementAngle));
        plane := Some(u);
      }
      settings := st;
    }
  }
}
