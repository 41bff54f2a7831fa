# WebGL hover effect: a Dafny model

A model of the core of `astro-webgl-hover`: the per-image hover controller
(`WebglHover`), its geometry helpers, the capability gate that falls back to a
static image, the configuration records and defaults, and the entry point.
The entry point reads the document configuration, layers each slide's
attributes over it, and builds one controller per slide that holds a plane.

One module per source file:

- `wrappers.dfy`: `Wrappers`, the `Option` type, with `None` standing for `undefined`/`null`.
- `utils.dfy`: `Utils`, from `src/lib/webgl-hover/utils.ts`:
  - attribute lookups with defaults;
  - degrees and radians;
  - the displacement vector;
  - the cover-fit texture scale.
- `performance.dfy`: `Performance`, from `src/lib/webgl-hover/performance.ts`. It makes the low-performance and fallback decisions over the platform signals, which are taken as inputs.
- `config.dfy`: `Config`, from `src/lib/webgl-hover/config.ts`:
  - `HoverConfig`, `HoverOptions` and `DEFAULT_CONFIG`;
  - `PartialOptions`, for `Partial<WebglHoverOptions>`;
  - `NumberText`: `parseFloat` and `String` on numbers, passed in as functions.
- `webgl_hover.dfy`: `Hover`, from `src/lib/webgl-hover/WebglHover.ts`, in two layers:
  - The first layer is a `State` value and one transition function per operation: `AfterMouseEnter`, `AfterSetProgress`, and so on. All the lemmas are stated on it, including those about runs of events.
  - The second layer is the class `WebglHover`. Each of its methods updates the fields in place. Each is proved to keep `Valid()` and to produce `Model() == AfterX(old(Model()))`.
  - The renderer's plane is its uniform record, which is `None` after `destroy`.
  - The tween engine is a single pending request slot on the four driven uniforms:
    - a new request replaces the pending one (`overwrite: true`);
    - `CompleteTween` writes the request's targets and runs its on-complete action.
  - `ready` records that the plane's ready callback has run. Only after it are the render loop and the mouse listeners active.
- `index.dfy`: `Index`, from `src/lib/webgl-hover/index.ts`:
  - `getConfigFromDOM` and `getOptionsFromSlide`;
  - the controller-building part of `initWebglHover`, an imperative loop over the slides;
  - the easing catalogue.

Numbers are reals. `Math.cos` and `Math.sin` are uninterpreted functions, passed in as `Trig`. `Math.PI` is its decimal literal, and only its positivity is used. A DOM element is the map of its attributes. `dataset.fooBar` is the attribute `data-foo-bar`.

Notes on what the code does at its edges, which the model follows:

- For a 16x9 plane over a 4x3 texture, `calculateTextureScale` takes its first branch and gives `(4/3, 1)`. See `TextureScaleSixteenNineOverFourThree`.
- Any easing string is passed through; nothing checks it against the catalogue.
- Any present numeric slide attribute, even an empty one, is handed to `parseFloat`.

## Model

| member | source | states |
|---|---|---|
| Utils.GetAttributeAsFloat | src/lib/webgl-hover/utils.ts:5-12 | the default exactly when the attribute is absent; otherwise `parseFloat` of the value, even when the value is empty |
| Utils.GetAttributeAsString | src/lib/webgl-hover/utils.ts:14-20 | the default when the attribute is absent or empty, else the value; an empty result only comes from an empty default |
| Utils.GetAttributeAsStringReadsBack | src/lib/webgl-hover/utils.ts:14-20 | a non-empty value written to an attribute is read back; a removed attribute gives the default |
| Utils.DegreesToRadians | src/lib/webgl-hover/utils.ts:22-24 | converting back to degrees gives the input; zero maps to zero and the sign is kept |
| Utils.RadiansToDegrees | src/lib/webgl-hover/WebglHover.ts:202 | the conversion `getConfig` applies keeps the sign |
| Utils.RadiansRoundTrip | src/lib/webgl-hover/WebglHover.ts:202 | radians converted to degrees and back are unchanged, which is what makes `updateConfig(getConfig())` a no-op |
| Utils.DegreesToRadiansLinear | src/lib/webgl-hover/utils.ts:22-24 | the conversion maps sums to sums and scalings to scalings |
| Utils.DisplacementVector | src/lib/webgl-hover/utils.ts:26-32 | intensity 0 gives (0, 0) for every angle |
| Utils.DisplacementScales | src/lib/webgl-hover/utils.ts:26-32 | both components scale linearly with the intensity |
| Utils.DisplacementSameDirection | src/lib/webgl-hover/utils.ts:26-32 | two intensities at one angle give parallel vectors |
| Utils.CalculateTextureScale | src/lib/webgl-hover/utils.ts:34-53 | defined unless a dimension is zero; `scaleX / scaleY == planeRatio / textureRatio`; one component is 1 |
| Utils.TextureScaleCovers | src/lib/webgl-hover/utils.ts:40-52 | for positive dimensions both components are at least 1 and one is exactly 1 |
| Utils.TextureScaleSameAspect | src/lib/webgl-hover/utils.ts:46-50 | identical aspect ratios give (1, 1), through the else branch |
| Utils.TextureScaleSixteenNineOverFourThree | src/lib/webgl-hover/utils.ts:46-47 | a 16x9 plane over a 4x3 texture gives `((16/9)/(4/3), 1)`, which is `(4/3, 1)` |
| Performance.IsLowPerformance | src/lib/webgl-hover/performance.ts:12-28 | data saving, memory under 4, or at most 2 cores each force it; it holds only when one of them does |
| Performance.ShouldUseFallback | src/lib/webgl-hover/performance.ts:34-36 | holds if and only if reduced motion is requested or the device is low-performance |
| Performance.NoTelemetryIsNotLow | src/lib/webgl-hover/performance.ts:12-28 | with no data saving and no hardware figures, the device is not low-performance |
| Performance.LowPerformanceBoundaries | src/lib/webgl-hover/performance.ts:27 | exactly 4 GB and 3 cores do not trigger; 3.5 GB, 2 cores, or data saving do |
| Performance.FallbackExamples | src/lib/webgl-hover/performance.ts:34-36 | memory 2 with cores 8 falls back, and so do memory 8 with cores 2 and reduced motion on strong hardware; memory 8 with cores 8 does not |
| Hover.TargetsAtEnds | src/lib/webgl-hover/WebglHover.ts:162-171 | the manual progress line meets the rest values at 0 and the hover targets at 1 |
| Hover.InitialIsRest | src/lib/webgl-hover/WebglHover.ts:36-80 | a new controller is enabled and idle; its uniforms are at rest with time 0, its displacement is the vector of the options, its rotation is stored in radians, and the invariant holds |
| Hover.DefaultHoverTargets | src/lib/webgl-hover/config.ts:35-48 | with the defaults, the hover targets are progress 1, zoom 1.1, rotation 0 and shift 0 |
| Hover.StepKeepsInv | src/lib/webgl-hover/WebglHover.ts:222-234 | every operation keeps the invariant: displacement and noise uniforms match the parameters, and a pending exit heads for rest |
| Hover.RunKeepsInv | src/lib/webgl-hover/WebglHover.ts:222-234 | any sequence of operations keeps the invariant |
| Hover.DisabledIgnoresPointer | src/lib/webgl-hover/WebglHover.ts:120-138 | while disabled, mouse enter and mouse out change nothing; `setHoverEnabled` changes only the flag |
| Hover.MouseEnterRequestsHover | src/lib/webgl-hover/WebglHover.ts:120-135 | mouse enter sets `isAnimating` and requests `(1, 1 + zoom, imageRotation, rgbShiftIntensity)` with `durationIn`/`easeIn` |
| Hover.MouseOutRequestsRest | src/lib/webgl-hover/WebglHover.ts:137-153 | mouse out requests `(0, 1, 0, 0)` with `durationOut`/`easeOut` and an on-complete action; `isAnimating` is left as it was |
| Hover.EnterThenOut | src/lib/webgl-hover/WebglHover.ts:137-153 | enter then out leaves only the exit request; its completion restores rest and stops animating |
| Hover.OutThenEnterKeepsAnimating | src/lib/webgl-hover/WebglHover.ts:125-134 | out then enter supersedes the exit request, whose on-complete never runs; animation stays on at the hover values |
| Hover.OnlyExitOrScrubStopsAnimating | src/lib/webgl-hover/WebglHover.ts:144-146 | only the completion of an exit request, or a manual progress at or below 0, turns `isAnimating` off |
| Hover.RenderTicksTime | src/lib/webgl-hover/WebglHover.ts:95-101 | a frame adds exactly 0.01 to `time` when animating and nothing otherwise; no other uniform or field changes |
| Hover.StepTimeGrows | src/lib/webgl-hover/WebglHover.ts:95-101 | no operation brings a plane back or lowers `time`; only a frame raises it |
| Hover.RunTimeGrows | src/lib/webgl-hover/WebglHover.ts:95-101 | over any sequence of operations, `time` never decreases while the plane exists |
| Hover.DestroyIsFinal | src/lib/webgl-hover/WebglHover.ts:177-183 | after `destroy`, no sequence of operations brings a plane back or re-activates the controller |
| Hover.DestroyedIsInert | src/lib/webgl-hover/WebglHover.ts:155-171 | after `destroy`, `setProgress`, `resize`, the pointer events and frames are no-ops |
| Hover.SetProgressIsLinear | src/lib/webgl-hover/WebglHover.ts:162-171 | `setProgress(p)` writes `(p, 1 + zoom·p, imageRotation·p, rgbShiftIntensity·p)` and animates if and only if `p > 0`; `setProgress(0)` restores rest |
| Hover.ScrubLastWins | src/lib/webgl-hover/WebglHover.ts:162-171 | after any sequence of manual progress values, the uniforms are the line of the last value |
| Hover.SetProgressDoesNotCancel | src/lib/webgl-hover/WebglHover.ts:162-171 | a manual 0 after mouse enter does not cancel the enter request; its completion leaves the hover values with animation off |
| Hover.UpdateWithNothingOrOwnConfig | src/lib/webgl-hover/WebglHover.ts:195-235 | an empty update changes nothing, and so does `updateConfig(getConfig())` |
| Hover.UpdateConfigTouchesOnlySupplied | src/lib/webgl-hover/WebglHover.ts:211-235 | each parameter becomes the supplied value (rotation converted to radians) and keeps its old value when omitted; the noise parameters and uniforms change only with a plane; flags and pending request stay; with a plane, every uniform other than the displacement and noise stays, and the displacement follows the new intensity and angle |
| Hover.WebglHover.constructor | src/lib/webgl-hover/WebglHover.ts:36-80 | the new object is valid and its state is `InitialState` of the options |
| Hover.WebglHover.OnReady | src/lib/webgl-hover/WebglHover.ts:82-92 | the ready callback activates the render loop and the listeners while the plane exists |
| Hover.WebglHover.HandleMouseEnter | src/lib/webgl-hover/WebglHover.ts:120-135 | the fields become `AfterMouseEnter` of the old state, and validity is kept |
| Hover.WebglHover.HandleMouseOut | src/lib/webgl-hover/WebglHover.ts:137-153 | the fields become `AfterMouseOut` of the old state, and validity is kept |
| Hover.WebglHover.Render | src/lib/webgl-hover/WebglHover.ts:95-101 | the fields become `AfterRender` of the old state, and validity is kept |
| Hover.WebglHover.CompleteTween | src/lib/webgl-hover/WebglHover.ts:144-152 | the pending targets are written and its on-complete action runs, as `AfterTweenComplete` |
| Hover.WebglHover.Resize | src/lib/webgl-hover/WebglHover.ts:155-159 | the viewport becomes the resolution uniform while a plane exists |
| Hover.WebglHover.SetProgress | src/lib/webgl-hover/WebglHover.ts:162-171 | the fields become `AfterSetProgress` of the old state, and validity is kept |
| Hover.WebglHover.SetHoverEnabled | src/lib/webgl-hover/WebglHover.ts:173-175 | only the flag changes |
| Hover.WebglHover.Destroy | src/lib/webgl-hover/WebglHover.ts:177-183 | the plane is removed and nothing else changes |
| Hover.WebglHover.GetConfig | src/lib/webgl-hover/WebglHover.ts:195-209 | every parameter, with the rotation back in degrees, as `ConfigOf` |
| Hover.WebglHover.UpdateConfig | src/lib/webgl-hover/WebglHover.ts:211-235 | the fields become `AfterUpdateConfig` of the old state, and validity is kept |
| Config.DefaultTextRoundTrips | src/lib/webgl-hover/index.ts:30-40 | the printed forms of the default numbers (`String(0.8)` is "0.8", `String(6.0)` is "6") parse back to them, so the round-trip hypothesis below can be met |
| Index.ReadNumber | src/lib/webgl-hover/index.ts:30-40 | a non-empty dataset value is parsed; otherwise, when the default's printed form parses back to it, the result is the default |
| Index.GetConfigFromDom | src/lib/webgl-hover/index.ts:22-43 | no config element gives `DEFAULT_CONFIG`; `debug` holds if and only if the attribute is exactly "true" |
| Index.DocumentOverridesDefaults | src/lib/webgl-hover/index.ts:29-40 | each field is the non-empty dataset value when there is one, and the default otherwise |
| Index.BlankConfigElementGivesDefaults | src/lib/webgl-hover/index.ts:29-41 | a config element whose attributes are all empty yields `DEFAULT_CONFIG` |
| Index.GetOptionsFromSlide | src/lib/webgl-hover/index.ts:45-67 | a slide with no size attributes gets the scale (1, 1) |
| Index.SlideOverridesConfig | src/lib/webgl-hover/index.ts:53-64 | each option is the slide attribute when present (an easing must also be non-empty), and the passed configuration value otherwise |
| Index.NoTextureSizeIsUnscaled | src/lib/webgl-hover/index.ts:46-51 | the texture size defaults to the plane size, so any non-zero plane without a texture size gets scale (1, 1) |
| Index.BareSlideTakesConfig | src/lib/webgl-hover/index.ts:45-67 | a slide without attributes gets the configuration, minus `debug`, with scale (1, 1) |
| Index.LayeredPrecedence | src/lib/webgl-hover/index.ts:275 | for all eleven options, a slide attribute wins over the config element's non-empty value, which wins over `DEFAULT_CONFIG` (an easing attribute must be non-empty to win) |
| Index.EasingCatalogue | src/lib/webgl-hover/index.ts:214-242 | 27 distinct names, including "power2.out" |
| Index.DefaultConfigIsSane | src/lib/webgl-hover/config.ts:35-48 | both durations are 0.8 and positive, both easings are "power2.out" (a catalogue name), and `debug` is off |
| Index.PlaneSlides | src/lib/webgl-hover/index.ts:271-278 | the kept slides all hold a plane, come from the input, and are no more than it |
| Index.PlaneSlidesAppend | src/lib/webgl-hover/index.ts:271-278 | filtering distributes over concatenation, so slides are visited one at a time |
| Index.PlaneSlidesKeepsExactlyPlanes | src/lib/webgl-hover/index.ts:271-278 | a slide is kept if and only if it holds a plane |
| Index.PlaneOptionsAppend | src/lib/webgl-hover/index.ts:271-278 | the per-plane options distribute over concatenation |
| Index.PlaneOptionsOfPlaneSlides | src/lib/webgl-hover/index.ts:271-278 | the i-th options are those of the i-th slide that holds a plane |
| Index.PlaneOptionsStep | src/lib/webgl-hover/index.ts:271-278 | visiting one more slide adds its options exactly when it holds a plane |
| Index.BuildControllers | src/lib/webgl-hover/index.ts:269-278 | one new, valid, distinct controller per slide that holds a plane, in order, each built from that slide's options |
| Index.InitWebglHover | src/lib/webgl-hover/index.ts:253-278 | the fallback yields no controller; otherwise there is one new, valid, distinct controller per plane slide, in order, each built from that slide's options over the document configuration |

## Left out

- The renderer (Curtains.js) is not modelled: plane construction, shaders, GPU resources and the removal of the plane. Only the plane's uniform record is kept.
- Tween easing, interpolation and timing are not modelled. A request's completion is one step that writes its targets.
- The four per-uniform tween requests are one request slot. GSAP keeps them per uniform, but every handler issues all four together with `overwrite: true`.
- Event listener binding and unbinding are not modelled. The listeners are live exactly while the plane exists after the ready callback.
- `hideOriginalImage`, `setDebugHighlight`, `applyFallbackStyles` and `createCanvasContainer` are not modelled. They are style and DOM writes with no effect on the modelled state.
- The debug panel `initDebugMode` is not modelled. It is UI built from a dynamic import. The calls it makes, `setProgress`, `setHoverEnabled`, `updateConfig` and `getConfig`, are modelled.
- The resize debounce (`setTimeout`) is not modelled: timers are out of scope. `Resize` takes the viewport size as a parameter.
- `Performance.PrefersReducedMotion` has no contract of its own. Its media query is the `reducedMotion` input, which it returns.
- Browser queries (`navigator.*`, `matchMedia`, `innerWidth`/`innerHeight`, `devicePixelRatio`) are inputs.
- IEEE floating point is not modelled: no NaN from `parseFloat` and no infinities. `CalculateTextureScale` returns `None` where the code would divide by zero.
- Hover.WebglHover: the eleven parameter fields are kept as one `settings` record field instead of eleven separate fields. The updates in place are the same.
- Index.ReadNumber: the fallback to the default is stated under the hypothesis that the default's printed form parses back to it. `String` and `parseFloat` are parameters here, and JavaScript's pair meets this for the default numbers. `DocumentOverridesDefaults`, `BlankConfigElementGivesDefaults` and `LayeredPrecedence` assume it only for the six numbers in `DEFAULT_CONFIG`.
- The repository-root `index.ts` only re-exports and is not part of this model.
