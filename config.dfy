/**
 * The records of src/lib/webgl-hover/config.ts: the document-level
 * configuration, the per-instance options and the defaults.
 */
module Config {
  import opened Wrappers
  import opened Utils

  /** `WebglHoverConfig`: what the document-level config element can set. */
  datatype HoverConfig = HoverConfig(
    durationIn: real,
    durationOut: real,
    easeIn: string,
    easeOut: string,
    displacementAngle: real,
    intensity: real,
    zoom: real,
    imageRotation: real,
    noiseSpeed: real,
    noiseScale: real,
    rgbShiftIntensity: real,
    debug: bool)

  /**
   * `WebglHoverOptions`: the numeric and easing fields of the configuration,
   * without `debug`, plus the cover-fit scale of the texture (`None` stands
   * for the non-finite pair a zero dimension produces).
   */
  datatype HoverOptions = HoverOptions(
    durationIn: real,
    durationOut: real,
    easeIn: string,
    easeOut: string,
    intensity: real,
    displacementAngle: real,
    zoom: real,
    imageRotation: real,
    noiseSpeed: real,
    noiseScale: real,
    rgbShiftIntensity: real,
    tex1Scale: Option<Vec2>)

  /**
   * `Partial<WebglHoverOptions>` as `getConfig` produces it and `updateConfig`
   * reads it; `None` is an omitted field. `tex1Scale` is left out: neither
   * method touches it.
   */
  datatype PartialOptions = PartialOptions(
    durationIn: Option<real>,
    durationOut: Option<real>,
    easeIn: Option<string>,
    easeOut: Option<string>,
    zoom: Option<real>,
    imageRotation: Option<real>,
    noiseSpeed: Option<real>,
    noiseScale: Option<real>,
    rgbShiftIntensity: Option<real>,
    intensity: Option<real>,
    displacementAngle: Option<real>)

  /** The update that supplies no field. */
  const NO_CHANGES: PartialOptions :=
    PartialOptions(None, None, None, None, None, None, None, None, None, None, None)

  /** `DEFAULT_CONFIG`. */
  const DEFAULT_CONFIG: HoverConfig := HoverConfig(
    durationIn := 0.8,
    durationOut := 0.8,
    easeIn := "power2.out",
    easeOut := "power2.out",
    displacementAngle := 0.0,
    intensity := 1.0,
    zoom := 0.1,
    imageRotation := 0.0,
    noiseSpeed := 0.5,
    noiseScale := 6.0,
    rgbShiftIntensity := 0.0,
    debug := false)

  /**
   * JavaScript's `parseFloat` and `String` on numbers, which the model leaves
   * abstract. What the document defaults rely on is that printing each
   * default number and parsing it back gives that number; no function from
   * the reals to strings can be undone for every real, so nothing more is
   * asked.
   */
  datatype NumberText = NumberText(parse: string -> real, show: real -> string)

  /** The printed forms of the numbers in `DEFAULT_CONFIG` parse back to them. */
  ghost predicate RoundTripsDefaults(nt: NumberText)
  {
    && nt.parse(nt.show(0.0)) == 0.0
    && nt.parse(nt.show(0.1)) == 0.1
    && nt.parse(nt.show(0.5)) == 0.5
    && nt.parse(nt.show(0.8)) == 0.8
    && nt.parse(nt.show(1.0)) == 1.0
    && nt.parse(nt.show(6.0)) == 6.0
  }

  /** The printed forms `String` gives the defaults, and `parseFloat` on them. */
  const DEFAULT_TEXT: NumberText := NumberText(
    s => if s == "0.1" then 0.1 else if s == "0.5" then 0.5 else if s == "0.8" then 0.8
         else if s == "1" then 1.0 else if s == "6" then 6.0 else 0.0,
    x => if x == 0.1 then "0.1" else if x == 0.5 then "0.5" else if x == 0.8 then "0.8"
         else if x == 1.0 then "1" else if x == 6.0 then "6" else "0")

  /** The hypothesis can be met: the JavaScript texts of the defaults round-trip. */
  lemma DefaultTextRoundTrips()
    ensures RoundTripsDefaults(DEFAULT_TEXT)
    ensures DEFAULT_TEXT.show(0.8) == "0.8" && DEFAULT_TEXT.show(6.0) == "6"
  {
  }
}
