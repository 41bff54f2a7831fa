/**
 * The entry point of src/lib/webgl-hover/index.ts: reading the document-level
 * configuration, reading one slide's options on top of it, the capability
 * gate and the construction of one controller per slide that holds a plane,
 * and the easing names the debug panel offers.
 *
 * The document is given as data: the attributes of the config element (if
 * the page has one) and the slides in document order, each with its
 * attributes and whether it contains a plane element.
 */
module Index {
  import opened Wrappers
  import opened Utils
  import opened Config
  import opened Performance
  import opened Hover

  /** A `.whi-slide` element: its attributes and whether it holds a `.whi-plane`. */
  datatype Slide = Slide(attributes: Element, hasPlane: bool)

  /** The parts of the page `initWebglHover` reads. */
  datatype Document = Document(configElement: Option<Element>, slides: seq<Slide>)

  // ---------------------------------------------------------------------
  // The document-level configuration
  // ---------------------------------------------------------------------

  /** The dataset value of `attribute` when the element has a non-empty one. */
  function DatasetValue(el: Element, attribute: string): Option<string>
  {
    if attribute in el && el[attribute] != "" then Some(el[attribute]) else None
  }

  /**
   * One numeric field of `getConfigFromDOM`: the dataset value, or the
   * printed default, parsed. When the default's printed form parses back to
   * it, a missing or empty value gives the default itself.
   */
  function ReadNumber(el: Element, attribute: string, defaultValue: real, nt: NumberText): (r: real)
    ensures DatasetValue(el, attribute).Some? ==> r == nt.parse(DatasetValue(el, attribute).value)
    ensures DatasetValue(el, attribute).None? && nt.parse(nt.show(defaultValue)) == defaultValue ==> r == defaultValue
  {
    nt.parse(GetAttributeAsString(el, attribute, nt.show(defaultValue)))
  }

  /**
   * `getConfigFromDOM`: `DEFAULT_CONFIG` when the page has no config element,
   * otherwise each field read from its `data-*` attribute with the default as
   * fallback; `debug` is on only for the exact text "true".
   */
  function GetConfigFromDom(configElement: Option<Element>, nt: NumberText): (c: HoverConfig)
    ensures configElement.None? ==> c == DEFAULT_CONFIG
    ensures configElement.Some? ==>
      (c.debug <==> "data-debug" in configElement.value && configElement.value["data-debug"] == "true")
  {
    match configElement
    case None => DEFAULT_CONFIG
    case Some(el) =>
      HoverConfig(
        durationIn := ReadNumber(el, "data-duration-in", DEFAULT_CONFIG.durationIn, nt),
        durationOut := ReadNumber(el, "data-duration-out", DEFAULT_CONFIG.durationOut, nt),
        easeIn := GetAttributeAsString(el, "data-ease-in", DEFAULT_CONFIG.easeIn),
        easeOut := GetAttributeAsString(el, "data-ease-out", DEFAULT_CONFIG.easeOut),
        displacementAngle := ReadNumber(el, "data-displacement-angle", DEFAULT_CONFIG.displacementAngle, nt),
        intensity := ReadNumber(el, "data-intensity", DEFAULT_CONFIG.intensity, nt),
        zoom := ReadNumber(el, "data-zoom", DEFAULT_CONFIG.zoom, nt),
        imageRotation := ReadNumber(el, "data-image-rotation", DEFAULT_CONFIG.imageRotation, nt),
        noiseSpeed := ReadNumber(el, "data-noise-speed", DEFAULT_CONFIG.noiseSpeed, nt),
        noiseScale := ReadNumber(el, "data-noise-scale", DEFAULT_CONFIG.noiseScale, nt),
        rgbShiftIntensity := ReadNumber(el, "data-rgb-shift-intensity", DEFAULT_CONFIG.rgbShiftIntensity, nt),
        debug := "data-debug" in el && el["data-debug"] == "true")
  }

  /** `v` is the document value of a numeric field: the dataset value if non-empty, else `d`. */
  ghost predicate DocNumber(el: Element, attribute: string, d: real, parse: string -> real, v: real)
  {
    v == (if DatasetValue(el, attribute).Some? then parse(DatasetValue(el, attribute).value) else d)
  }

  /** `v` is the non-empty value of an easing attribute, else `d`. */
  ghost predicate NonEmptyOr(el: Element, attribute: string, d: string, v: string)
  {
    v == DatasetValue(el, attribute).GetOr(d)
  }

  /** Document values override the defaults field by field. */
  lemma {:induction false} DocumentOverridesDefaults(el: Element, nt: NumberText)
    requires RoundTripsDefaults(nt)
    ensures var c := GetConfigFromDom(Some(el), nt);
      && DocNumber(el, "data-duration-in", DEFAULT_CONFIG.durationIn, nt.parse, c.durationIn)
      && DocNumber(el, "data-duration-out", DEFAULT_CONFIG.durationOut, nt.parse, c.durationOut)
      && NonEmptyOr(el, "data-ease-in", DEFAULT_CONFIG.easeIn, c.easeIn)
      && NonEmptyOr(el, "data-ease-out", DEFAULT_CONFIG.easeOut, c.easeOut)
      && DocNumber(el, "data-displacement-angle", DEFAULT_CONFIG.displacementAngle, nt.parse, c.displacementAngle)
      && DocNumber(el, "data-intensity", DEFAULT_CONFIG.intensity, nt.parse, c.intensity)
      && DocNumber(el, "data-zoom", DEFAULT_CONFIG.zoom, nt.parse, c.zoom)
      && DocNumber(el, "data-image-rotation", DEFAULT_CONFIG.imageRotation, nt.parse, c.imageRotation)
      && DocNumber(el, "data-noise-speed", DEFAULT_CONFIG.noiseSpeed, nt.parse, c.noiseSpeed)
      && DocNumber(el, "data-noise-scale", DEFAULT_CONFIG.noiseScale, nt.parse, c.noiseScale)
      && DocNumber(el, "data-rgb-shift-intensity", DEFAULT_CONFIG.rgbShiftIntensity, nt.parse, c.rgbShiftIntensity)
  {
  }

  /** A config element whose attributes are all empty yields exactly the defaults. */
  lemma {:induction false} BlankConfigElementGivesDefaults(el: Element, nt: NumberText)
    requires RoundTripsDefaults(nt)
    requires forall a :: a in el ==> el[a] == ""
    ensures GetConfigFromDom(Some(el), nt) == DEFAULT_CONFIG
  {
    var c := GetConfigFromDom(Some(el), nt);
    assert !c.debug;
  }

  // ---------------------------------------------------------------------
  // One slide's options
  // ---------------------------------------------------------------------

  /**
   * `getOptionsFromSlide`: every field from its `data-*` attribute with the
   * document configuration as fallback; the plane size defaults to 1 x 1 and
   * the texture size to the plane size; `tex1Scale` is their cover-fit scale.
   */
  function GetOptionsFromSlide(slide: Element, defaults: HoverConfig, parseFloat: string -> real): (o: HoverOptions)
    // with no size attributes at all the default 1 x 1 plane and texture need no correction
    ensures "data-width" !in slide && "data-height" !in slide && "data-width1" !in slide && "data-height1" !in slide
         ==> o.tex1Scale == Some(Vec2(1.0, 1.0))
  {
    var planeWidth := GetAttributeAsFloat(slide, "data-width", 1.0, parseFloat);
    var planeHeight := GetAttributeAsFloat(slide, "data-height", 1.0, parseFloat);
    var tex1Width := GetAttributeAsFloat(slide, "data-width1", planeWidth, parseFloat);
    var tex1Height := GetAttributeAsFloat(slide, "data-height1", planeHeight, parseFloat);
    var tex1Scale := CalculateTextureScale(planeWidth, planeHeight, tex1Width, tex1Height);
    HoverOptions(
      durationIn := GetAttributeAsFloat(slide, "data-duration-in", defaults.durationIn, parseFloat),
      durationOut := GetAttributeAsFloat(slide, "data-duration-out", defaults.durationOut, parseFloat),
      easeIn := GetAttributeAsString(slide, "data-ease-in", defaults.easeIn),
      easeOut := GetAttributeAsString(slide, "data-ease-out", defaults.easeOut),
      intensity := GetAttributeAsFloat(slide, "data-intensity", defaults.intensity, parseFloat),
      displacementAngle := GetAttributeAsFloat(slide, "data-displacement-angle", defaults.displacementAngle, parseFloat),
      zoom := GetAttributeAsFloat(slide, "data-zoom", defaults.zoom, parseFloat),
      imageRotation := GetAttributeAsFloat(slide, "data-image-rotation", defaults.imageRotation, parseFloat),
      noiseSpeed := GetAttributeAsFloat(slide, "data-noise-speed", defaults.noiseSpeed, parseFloat),
      noiseScale := GetAttributeAsFloat(slide, "data-noise-scale", defaults.noiseScale, parseFloat),
      rgbShiftIntensity := GetAttributeAsFloat(slide, "data-rgb-shift-intensity", defaults.rgbShiftIntensity, parseFloat),
      tex1Scale := tex1Scale)
  }

  /** `v` is the slide's value of a numeric field: the attribute if present, else `d`. */
  ghost predicate SlideNumber(el: Element, attribute: string, d: real, parse: string -> real, v: real)
  {
    v == (if attribute in el then parse(el[attribute]) else d)
  }

  /**
   * Slide attributes override the passed-in configuration field by field; a
   * present numeric attribute is parsed even when empty, an empty easing
   * name falls back.
   */
  lemma {:induction false} SlideOverridesConfig(slide: Element, defaults: HoverConfig, parse: string -> real)
    ensures var o := GetOptionsFromSlide(slide, defaults, parse);
      && SlideNumber(slide, "data-duration-in", defaults.durationIn, parse, o.durationIn)
      && SlideNumber(slide, "data-duration-out", defaults.durationOut, parse, o.durationOut)
      && NonEmptyOr(slide, "data-ease-in", defaults.easeIn, o.easeIn)
      && NonEmptyOr(slide, "data-ease-out", defaults.easeOut, o.easeOut)
      && SlideNumber(slide, "data-intensity", defaults.intensity, parse, o.intensity)
      && SlideNumber(slide, "data-displacement-angle", defaults.displacementAngle, parse, o.displacementAngle)
      && SlideNumber(slide, "data-zoom", defaults.zoom, parse, o.zoom)
      && SlideNumber(slide, "data-image-rotation", defaults.imageRotation, parse, o.imageRotation)
      && SlideNumber(slide, "data-noise-speed", defaults.noiseSpeed, parse, o.noiseSpeed)
      && SlideNumber(slide, "data-noise-scale", defaults.noiseScale, parse, o.noiseScale)
      && SlideNumber(slide, "data-rgb-shift-intensity", defaults.rgbShiftIntensity, parse, o.rgbShiftIntensity)
  {
  }

  /**
   * The texture size defaults to the plane size, so a slide that gives no
   * texture size is not rescaled, whatever its (non-zero) plane size.
   */
  lemma {:induction false} NoTextureSizeIsUnscaled(slide: Element, defaults: HoverConfig, parse: string -> real)
    requires "data-width1" !in slide && "data-height1" !in slide
    requires "data-width" in slide ==> parse(slide["data-width"]) != 0.0
    requires "data-height" in slide ==> parse(slide["data-height"]) != 0.0
    ensures GetOptionsFromSlide(slide, defaults, parse).tex1Scale == Some(Vec2(1.0, 1.0))
  {
    var w := GetAttributeAsFloat(slide, "data-width", 1.0, parse);
    var h := GetAttributeAsFloat(slide, "data-height", 1.0, parse);
    TextureScaleSameAspect(w, h, 1.0);
    assert 1.0 * w == w && 1.0 * h == h;
  }

  /** The options a slide without attributes gets: the configuration, minus `debug`, unscaled. */
  function OptionsOf(c: HoverConfig, tex1Scale: Option<Vec2>): HoverOptions
  {
    HoverOptions(c.durationIn, c.durationOut, c.easeIn, c.easeOut, c.intensity, c.displacementAngle,
                 c.zoom, c.imageRotation, c.noiseSpeed, c.noiseScale, c.rgbShiftIntensity, tex1Scale)
  }

  lemma BareSlideTakesConfig(defaults: HoverConfig, parse: string -> real)
    ensures GetOptionsFromSlide(map[], defaults, parse) == OptionsOf(defaults, Some(Vec2(1.0, 1.0)))
  {
  }

  /**
   * The three layers: a slide attribute wins, then a non-empty attribute of
   * the config element, then `DEFAULT_CONFIG`.
   */
  /**
   * `v` is a numeric option read through the three layers: the slide
   * attribute when present, else the config element's non-empty value, else `d`.
   */
  ghost predicate Layered(slide: Element, docEl: Element, attribute: string, d: real, parse: string -> real, v: real)
  {
    v == (if attribute in slide then parse(slide[attribute])
          else if DatasetValue(docEl, attribute).Some? then parse(docEl[attribute])
          else d)
  }

  lemma {:induction false} LayeredPrecedence(slide: Element, docEl: Element, nt: NumberText)
    requires RoundTripsDefaults(nt)
    ensures var o := GetOptionsFromSlide(slide, GetConfigFromDom(Some(docEl), nt), nt.parse);
      && Layered(slide, docEl, "data-duration-in", DEFAULT_CONFIG.durationIn, nt.parse, o.durationIn)
      && Layered(slide, docEl, "data-duration-out", DEFAULT_CONFIG.durationOut, nt.parse, o.durationOut)
      && Layered(slide, docEl, "data-intensity", DEFAULT_CONFIG.intensity, nt.parse, o.intensity)
      && Layered(slide, docEl, "data-displacement-angle", DEFAULT_CONFIG.displacementAngle, nt.parse, o.displacementAngle)
      && Layered(slide, docEl, "data-zoom", DEFAULT_CONFIG.zoom, nt.parse, o.zoom)
      && Layered(slide, docEl, "data-image-rotation", DEFAULT_CONFIG.imageRotation, nt.parse, o.imageRotation)
      && Layered(slide, docEl, "data-noise-speed", DEFAULT_CONFIG.noiseSpeed, nt.parse, o.noiseSpeed)
      && Layered(slide, docEl, "data-noise-scale", DEFAULT_CONFIG.noiseScale, nt.parse, o.noiseScale)
      && Layered(slide, docEl, "data-rgb-shift-intensity", DEFAULT_CONFIG.rgbShiftIntensity, nt.parse, o.rgbShiftIntensity)
      && o.easeIn == DatasetValue(slide, "data-ease-in").GetOr(DatasetValue(docEl, "data-ease-in").GetOr(DEFAULT_CONFIG.easeIn))
      && o.easeOut == DatasetValue(slide, "data-ease-out").GetOr(DatasetValue(docEl, "data-ease-out").GetOr(DEFAULT_CONFIG.easeOut))
  {
    DocumentOverridesDefaults(docEl, nt);
    SlideOverridesConfig(slide, GetConfigFromDom(Some(docEl), nt), nt.parse);
  }

  // ---------------------------------------------------------------------
  // The easing catalogue
  // ---------------------------------------------------------------------

  /** The easing names the debug panel offers for `easeIn` and `easeOut`. */
  const EASINGS: seq<string> := [
    "none",
    "power1.in", "power1.out", "power1.inOut",
    "power2.in", "power2.out", "power2.inOut",
    "power3.in", "power3.out", "power3.inOut",
    "power4.in", "power4.out", "power4.inOut",
    "back.in(1.7)", "back.out(1.7)", "back.inOut(1.7)",
    "elastic.out(1, 0.3)", "elastic.out(1, 0.5)", "elastic.inOut(1, 0.3)",
    "bounce.out", "bounce.inOut",
    "circ.in", "circ.out", "circ.inOut",
    "expo.in", "expo.out", "expo.inOut"
  ]

  lemma EasingCatalogue()
    ensures |EASINGS| == 27
    ensures forall i, j :: 0 <= i < j < |EASINGS| ==> EASINGS[i] != EASINGS[j]
    ensures EASINGS[5] == "power2.out"
  {
  }

  /** Both default easings are `power2.out`, which the catalogue offers; the durations are positive. */
  lemma DefaultConfigIsSane()
    ensures DEFAULT_CONFIG.durationIn == DEFAULT_CONFIG.durationOut == 0.8 > 0.0
    ensures DEFAULT_CONFIG.easeIn == DEFAULT_CONFIG.easeOut == "power2.out"
    ensures DEFAULT_CONFIG.easeIn in EASINGS && !DEFAULT_CONFIG.debug
  {
    EasingCatalogue();
  }

  // ---------------------------------------------------------------------
  // Building the controllers
  // ---------------------------------------------------------------------

  /** The slides that contain a plane element, in document order. */
  function PlaneSlides(slides: seq<Slide>): (r: seq<Slide>)
    ensures |r| <= |slides|
    ensures forall i :: 0 <= i < |r| ==> r[i].hasPlane && r[i] in slides
    decreases |slides|
  {
    if slides == [] then []
    else (if slides[0].hasPlane then [slides[0]] else []) + PlaneSlides(slides[1..])
  }

  /** Filtering a concatenation filters each part; so slides can be visited one by one. */
  lemma {:induction false} PlaneSlidesAppend(a: seq<Slide>, b: seq<Slide>)
    ensures PlaneSlides(a + b) == PlaneSlides(a) + PlaneSlides(b)
    decreases |a|
  {
    if a == [] {
      assert a + b == b;
    } else {
      assert (a + b)[1..] == a[1..] + b;
      PlaneSlidesAppend(a[1..], b);
    }
  }

  /** Every slide with a plane is kept and every slide without one is skipped. */
  lemma {:induction false} PlaneSlidesKeepsExactlyPlanes(slides: seq<Slide>)
    ensures forall s :: s in PlaneSlides(slides) <==> s in slides && s.hasPlane
    decreases |slides|
  {
    if slides != [] {
      PlaneSlidesKeepsExactlyPlanes(slides[1..]);
      assert slides == [slides[0]] + slides[1..];
    }
  }

  /** The options of each slide that holds a plane, in document order. */
  function PlaneOptions(slides: seq<Slide>, config: HoverConfig, parse: string -> real): seq<HoverOptions>
    decreases |slides|
  {
    if slides == [] then []
    else (if slides[0].hasPlane then [GetOptionsFromSlide(slides[0].attributes, config, parse)] else [])
         + PlaneOptions(slides[1..], config, parse)
  }

  lemma {:induction false} PlaneOptionsAppend(a: seq<Slide>, b: seq<Slide>, config: HoverConfig, parse: string -> real)
    ensures PlaneOptions(a + b, config, parse) == PlaneOptions(a, config, parse) + PlaneOptions(b, config, parse)
    decreases |a|
  {
    if a == [] {
      assert a + b == b;
    } else {
      assert (a + b)[1..] == a[1..] + b;
      PlaneOptionsAppend(a[1..], b, config, parse);
    }
  }

  /** `PlaneOptions` is the options of `PlaneSlides`, slide by slide. */
  lemma {:induction false} PlaneOptionsOfPlaneSlides(slides: seq<Slide>, config: HoverConfig, parse: string -> real)
    ensures |PlaneOptions(slides, config, parse)| == |PlaneSlides(slides)|
    ensures forall i :: 0 <= i < |PlaneSlides(slides)| ==>
      PlaneOptions(slides, config, parse)[i] == GetOptionsFromSlide(PlaneSlides(slides)[i].attributes, config, parse)
    decreases |slides|
  {
    if slides != [] {
      PlaneOptionsOfPlaneSlides(slides[1..], config, parse);
    }
  }

  /** `h` is a controller just built from options `o`. */
  ghost predicate BuiltFrom(h: WebglHover, o: HoverOptions, trig: Trig, viewport: Vec2)
    reads h
  {
    h.Valid() && h.trig == trig && h.Model() == InitialState(o, trig, viewport)
  }

  /** One more slide adds its options exactly when it holds a plane. */
  lemma PlaneOptionsStep(slides: seq<Slide>, k: nat, config: HoverConfig, parse: string -> real)
    requires k < |slides|
    ensures PlaneOptions(slides[..k + 1], config, parse)
         == PlaneOptions(slides[..k], config, parse)
            + (if slides[k].hasPlane then [GetOptionsFromSlide(slides[k].attributes, config, parse)] else [])
  {
    assert slides[..k + 1] == slides[..k] + [slides[k]];
    PlaneOptionsAppend(slides[..k], [slides[k]], config, parse);
  }

  /**
   * `initWebglHover`, with the platform signals, `parseFloat`/`String`, the
   * trigonometry and the window size as inputs. Under the fallback no
   * controller is built; otherwise one new controller per slide holding a
   * plane, in document order, each from that slide's options over the
   * document configuration.
   */
  method InitWebglHover(doc: Document, signals: Signals, nt: NumberText, trig: Trig, viewport: Vec2)
    returns (instances: seq<WebglHover>)
    ensures ShouldUseFallback(signals) ==> instances == []
    ensures !ShouldUseFallback(signals) ==>
      var options := PlaneOptions(doc.slides, GetConfigFromDom(doc.configElement, nt), nt.parse);
      && |instances| == |options|
      && forall i :: 0 <= i < |instances| ==> fresh(instances[i]) && BuiltFrom(instances[i], options[i], trig, viewport)
    ensures forall i, j :: 0 <= i < j < |instances| ==> instances[i] != instances[j]
  {
    if ShouldUseFallback(signals) {
      return [];
    }
    var config := GetConfigFromDom(doc.configElement, nt);
    instances := BuildControllers(doc.slides, config, nt.parse, trig, viewport);
  }

  /** The `forEach` over the slides: one controller per slide that holds a plane. */
  method BuildControllers(slides: seq<Slide>, config: HoverConfig, parse: string -> real, trig: Trig, viewport: Vec2)
    returns (instances: seq<WebglHover>)
    ensures var options := PlaneOptions(slides, config, parse);
      && |instances| == |options|
      && forall i :: 0 <= i < |instances| ==> fresh(instances[i]) && BuiltFrom(instances[i], options[i], trig, viewport)
    ensures forall i, j :: 0 <= i < j < |instances| ==> instances[i] != instances[j]
  {
    instances := [];
    for k := 0 to |slides|
      invariant var options := PlaneOptions(slides[..k], config, parse);
        && |instances| == |options|
        && forall i :: 0 <= i < |instances| ==> fresh(instances[i]) && BuiltFrom(instances[i], options[i], trig, viewport)
      invariant forall i, j :: 0 <= i < j < |instances| ==> instances[i] != instances[j]
    {
      PlaneOptionsStep(slides, k, config, parse);
      var slide := slides[k];
      if slide.hasPlane {
        var options := GetOptionsFromSlide(slide.attributes, config, parse);
        var hover := new WebglHover(options, trig, viewport);
        instances := instances + [hover];
      }
    }
    assert slides[..|slides|] == slides;
  }
}
