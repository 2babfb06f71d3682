/**
 * Refresh-rate arithmetic. The display reports its refresh rate as a float;
 * the model carries it as an integer number of milli-Hz.
 */
module FrameRate {

  /** Below this many frames per second a reported rate is not trusted. */
  const MinTrustedFps: int := 30
  /** The frame rate used instead of an untrusted one. */
  const DefaultFps: int := 60
  const MaxFps: int := 240

  /** A change of more than 1.0 Hz against the baseline is a mode switch. */
  const SwitchThresholdMilliHz: int := 1000

  /** `Math.round` of a float rate: the nearest whole Hz, halves rounded up. */
  function RoundHz(milliHz: int): (hz: int)
    ensures hz * 1000 - 500 <= milliHz < hz * 1000 + 500
  {
    (milliHz + 500) / 1000
  }

  /** The target frame rate handed to the renderer for a rounded refresh rate. */
  function ClampFps(fps: int): (r: int)
    ensures MinTrustedFps <= r <= MaxFps
    ensures fps < MinTrustedFps ==> r == DefaultFps
    ensures fps > MaxFps ==> r == MaxFps
    ensures MinTrustedFps <= fps <= MaxFps ==> r == fps
  {
    if fps < 30 then 60
    else if fps > 240 then 240
    else fps
  }

  /** The target frame rate for a refresh rate reported in milli-Hz. */
  function TargetFps(milliHz: int): int {
    ClampFps(RoundHz(milliHz))
  }

  function Abs(x: int): nat {
    if x < 0 then -x else x
  }

  /** The watchdog's test for a refresh-rate switch. */
  predicate SignificantChange(rate: int, baseline: int) {
    Abs(rate - baseline) > SwitchThresholdMilliHz
  }

  /**
   * A rate in the band [29.5 Hz, 240.5 Hz) is passed through as its nearest
   * whole number; a rate below that band falls back to 60 fps and one above
   * it is capped at 240 fps. Rates from 29.5 Hz to 59.5 Hz are NOT raised
   * to 60.
   */
  lemma TargetFpsBands(milliHz: int)
    ensures milliHz < 29500 ==> TargetFps(milliHz) == DefaultFps
    ensures milliHz >= 240500 ==> TargetFps(milliHz) == MaxFps
    ensures 29500 <= milliHz < 240500 ==>
      TargetFps(milliHz) == RoundHz(milliHz) && TargetFps(milliHz) * 1000 - 500 <= milliHz
  {
  }
}
