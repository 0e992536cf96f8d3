/** Visual emphasis driven by the failed-attempt count: the "Yes" button
    grows, glows and brightens, the "No" button fades and shrinks. Every
    formula is clamped. */
module Emphasis {
  import opened Numeric

  /** Scale factor of the "Yes" button. */
  function YesScale(attempts: nat): (scale: real)
    ensures 1.0 <= scale <= 1.8
  {
    MinReal(1.0 + attempts as real * 0.065, 1.8)
  }

  /** Glow radius, in pixels, of the "Yes" button; a steeper formula with a
      higher cap takes over from six attempts on. */
  function YesGlow(attempts: nat): (glow: int)
    ensures 0 <= glow <= 50
    ensures attempts < 6 ==> glow <= 20
    ensures attempts >= 6 ==> glow >= 36
  {
    if attempts >= 6 then MinInt(attempts * 6, 50) else MinInt(attempts * 4, 40)
  }

  /** Brightness of the "Yes" button, in percent. */
  function YesBrightness(attempts: nat): (brightness: int)
    ensures 100 <= brightness <= 120
  {
    100 + MinInt(attempts * 2, 20)
  }

  /** Saturation of the "Yes" button, in percent. */
  function YesSaturation(attempts: nat): (saturation: int)
    ensures 100 <= saturation <= 160
  {
    100 + MinInt(attempts * 8, 60)
  }

  /** Opacity of the "No" button: 0 while it fades out, otherwise decaying
      with the attempts but never below 0.75. */
  function NoOpacity(attempts: nat, fading: bool): (opacity: real)
    ensures fading ==> opacity == 0.0
    ensures !fading ==> 0.75 <= opacity <= 1.0
  {
    if fading then 0.0 else MaxReal(0.75, 1.0 - attempts as real * 0.02)
  }

  /** Font size, in pixels, of the "No" button's label. */
  function NoFontSize(attempts: nat): (size: real)
    ensures 13.0 <= size <= 15.0
  {
    MaxReal(13.0, 15.0 - attempts as real * 0.08)
  }

  /** Every "Yes" emphasis grows, or stays, with every further attempt,
      the glow included across its change of formula at six attempts. */
  lemma YesEmphasisMonotone(a: nat, b: nat)
    requires a <= b
    ensures YesScale(a) <= YesScale(b)
    ensures YesGlow(a) <= YesGlow(b)
    ensures YesBrightness(a) <= YesBrightness(b)
    ensures YesSaturation(a) <= YesSaturation(b)
  {
  }

  /** The "No" button's opacity and font size shrink, or stay, with every
      further attempt. */
  lemma NoEmphasisMonotone(a: nat, b: nat)
    requires a <= b
    ensures NoOpacity(b, false) <= NoOpacity(a, false)
    ensures NoFontSize(b) <= NoFontSize(a)
  {
  }

  /** Over the attempt counts the session can reach (at most 12), the cap
      on the "Yes" scale is never reached: the scale is its unclamped linear
      formula, at most 1.78. */
  lemma YesScaleCapUnreached(attempts: nat)
    requires attempts <= 12
    ensures YesScale(attempts) == 1.0 + attempts as real * 0.065 < 1.8
  {
  }

  /** Over the attempt counts the session can reach (at most 12), the floors
      of the "No" opacity and font size are never reached: each is its
      unclamped linear formula. */
  lemma NoDecayFloorsUnreached(attempts: nat)
    requires attempts <= 12
    ensures NoOpacity(attempts, false) == 1.0 - attempts as real * 0.02 > 0.75
    ensures NoFontSize(attempts) == 15.0 - attempts as real * 0.08 > 13.0
  {
  }

  /** The first failed attempt scales the "Yes" button to 1.065. */
  lemma FirstAttemptScale()
    ensures YesScale(1) == 1.065
  {
  }
}
