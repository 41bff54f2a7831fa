/**
 * The capability gate of src/lib/webgl-hover/performance.ts. The browser
 * queries it makes (`navigator.connection.saveData`, `navigator.deviceMemory`,
 * `navigator.hardwareConcurrency`, the reduced-motion media query) are taken
 * as inputs.
 */
module Performance {
  import opened Wrappers

  /**
   * The platform signals. `saveData` is `None` when either the connection
   * object or its flag is missing; the hardware figures are `None` when the
   * browser does not report them.
   */
  datatype Signals = Signals(
    saveData: Option<bool>,
    deviceMemory: Option<real>,
    hardwareConcurrency: Option<int>,
    reducedMotion: bool)

  /** `isLowPerformance`: data saving, under 4 GB of memory, or at most 2 cores. */
  function IsLowPerformance(s: Signals): (r: bool)
    ensures s.saveData == Some(true) ==> r
    ensures s.deviceMemory.Some? && s.deviceMemory.value < 4.0 ==> r
    ensures s.hardwareConcurrency.Some? && s.hardwareConcurrency.value <= 2 ==> r
    // a missing signal never forces the verdict by itself
    ensures r ==> s.saveData == Some(true)
                  || (s.deviceMemory.Some? && s.deviceMemory.value < 4.0)
                  || (s.hardwareConcurrency.Some? && s.hardwareConcurrency.value <= 2)
  {
    if s.saveData == Some(true) then true
    else
      (s.deviceMemory.Some? && s.deviceMemory.value < 4.0)
      || (s.hardwareConcurrency.Some? && s.hardwareConcurrency.value <= 2)
  }

  /** `prefersReducedMotion`: the `(prefers-reduced-motion: reduce)` query. */
  function PrefersReducedMotion(s: Signals): bool
  {
    s.reducedMotion
  }

  /** `shouldUseFallback`: reduced motion or a low-performance device. */
  function ShouldUseFallback(s: Signals): (r: bool)
    ensures PrefersReducedMotion(s) ==> r
    ensures IsLowPerformance(s) ==> r
    ensures r ==> PrefersReducedMotion(s) || IsLowPerformance(s)
  {
    PrefersReducedMotion(s) || IsLowPerformance(s)
  }

  /** With no data saving and no hardware figures the device is not low-end. */
  lemma NoTelemetryIsNotLow(s: Signals)
    requires s.saveData != Some(true) && s.deviceMemory.None? && s.hardwareConcurrency.None?
    ensures !IsLowPerformance(s)
  {
  }

  /** The boundaries: exactly 4 GB and exactly 3 cores do not trigger. */
  lemma LowPerformanceBoundaries()
    ensures !IsLowPerformance(Signals(None, Some(4.0), Some(3), false))
    ensures IsLowPerformance(Signals(None, Some(3.5), None, false))
    ensures IsLowPerformance(Signals(None, None, Some(2), false))
    ensures IsLowPerformance(Signals(Some(true), Some(16.0), Some(16), false))
  {
  }

  /** The documented cases of the fallback decision. */
  lemma FallbackExamples()
    ensures ShouldUseFallback(Signals(None, Some(2.0), Some(8), false))
    ensures ShouldUseFallback(Signals(None, Some(8.0), Some(2), false))
    ensures !ShouldUseFallback(Signals(None, Some(8.0), Some(8), false))
    ensures ShouldUseFallback(Signals(Some(false), Some(16.0), Some(16), true))
  {
  }
}
