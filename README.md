# Evasive "No" button and staged celebration reveal — a Dafny model

The site is a single page that asks its visitor to be someone's Valentine.
The "Yes" button is always available. The "No" button runs away from the
pointer. Every trigger on it is a pointer enter, a click or a touch start.
A trigger makes the button shake, then jump to the next of eight anchors
placed in a ring around the card. The label gets sadder each time, and the
"Yes" button grows and glows. Once 11 failed attempts are counted, the
next trigger makes the button shake once more, slide to the bottom-centre
anchor, fade out and be gone. Accepting switches to a celebration screen. There, four
independent timers reveal the card, the message, the media clip and the
rest of the content.

This project models that behaviour, all of it in `src/app/page.tsx`:

- `no_label.dfy` (module `NoLabel`): the twelve-entry message table and
  the saturating label lookup.
- `geometry.dfy` (module `Geometry`): the anchor ring, the button-size
  defaults, the clamp and `getAnchorPosition`. Coordinates are exact
  `real`s. The DOM measurements are given as a `Layout` value:
  - the card's bounding box, absent while the card is not mounted;
  - the button's measured size, absent while its ref is unset;
  - the viewport size.
- `emphasis.dfy` (module `Emphasis`): the "Yes" scale, glow, brightness and
  saturation formulas, and the "No" opacity and font-size formulas.
- `evasion.dfy` (module `Evasion`): the `moveNoButton` state machine.
  - `Step` and `Run` define it over values (`NoButtonState`).
  - The class `NoButton` has the component's state variables as fields,
    and one method per event. Each method is proved to perform `Step`.
  - The timer callbacks are events: `ShakeDone` is the 120 ms callback,
    `MoveDone` the 500 ms one and `FadeDone` the 800 ms one.
  - The field `pending` records which callback is scheduled. A callback
    method requires that its timer is pending, because a callback that
    was never scheduled cannot fire.
- `reveal.dfy` (module `Reveal`): the celebration timers.
  - Time is measured in milliseconds since mount.
  - The class `CelebrationScreen` holds the flags.
  - `StageAt` gives the forward-only stage sequence, and a lemma shows
    that the four independent timers always agree with it.
- `wrappers.dfy` (module `Wrappers`): `Option`, for the nullable values.
- `numeric.dfy` (module `Numeric`): `MinInt`, `MinReal` and `MaxReal`,
  the `Math.min` and `Math.max` calls the formulas make.

Two details of the code that the model follows as written:

- The button is not clamped into the card. Only the anchor offset
  (half the card size minus half the button size minus 20 px) keeps it
  inside, and only when that offset is not negative.
  `UnclampedInsideCard` proves exactly that much.
- The final path starts at `noAttempts >= 11`, not `== 11`. The two agree
  on every reachable state.

## Model

| member | source | states |
|---|---|---|
| NoLabel.NoButtonText | src/app/page.tsx:64-68 | the label saturates at both ends: 0 attempts shows message 0, 1..11 attempts show message `attempts`, and 11 or more show the terminal message 11 |
| NoLabel.NoButtonTextIsSaturatingLookup | src/app/page.tsx:64-68 | the three-branch rule equals the single lookup `messages[min(attempts, 11)]`, so the explicit 0 and cap branches change nothing |
| NoLabel.LabelChangesEachAttempt | src/app/page.tsx:19-32 | below the terminal entry, each further failed attempt shows a different label |
| Geometry.ButtonSize | src/app/page.tsx:75-76 | the button size falls back to 120 x 44 when its ref is unset; each dimension measured as 0 falls back to its default on its own |
| Geometry.Clamp | src/app/page.tsx:92-99 | a value already in range is unchanged; a value below the lower bound becomes the lower bound; a value above the upper bound becomes the upper bound; when the bounds cross, the lower bound wins |
| Geometry.GetAnchorPosition | src/app/page.tsx:71-102 | the result is null exactly when the card is absent. Otherwise x, y >= 10, and x <= innerWidth - w - 10 (likewise y) whenever that bound is >= 10. The point is the unclamped anchor point whenever that point already fits; a coordinate that does not fit lands exactly on the nearest margin (10, or innerWidth - w - 10), and on 10 when the viewport is too small |
| Geometry.AnchorOffsetsInRange | src/app/page.tsx:38-47 | every anchor offset of the ring lies in [-1, 1] |
| Geometry.UnclampedInsideCard | src/app/page.tsx:78-90 | before clamping, with a non-negative max offset, every anchor puts the whole button at least 20 px inside the card's edges |
| Emphasis.YesScale | src/app/page.tsx:169 | the "Yes" scale lies in [1, 1.8] |
| Emphasis.YesGlow | src/app/page.tsx:171 | the glow lies in [0, 50]; it is at most 20 below six attempts and at least 36 from six on |
| Emphasis.YesBrightness | src/app/page.tsx:172 | the brightness lies in [100, 120] |
| Emphasis.YesSaturation | src/app/page.tsx:173 | the saturation lies in [100, 160] |
| Emphasis.NoOpacity | src/app/page.tsx:305 | the opacity is 0 while fading and otherwise lies in [0.75, 1] |
| Emphasis.NoFontSize | src/app/page.tsx:306 | the font size lies in [13, 15] |
| Emphasis.YesEmphasisMonotone | src/app/page.tsx:169-173 | scale, glow, brightness and saturation never decrease as attempts grow, including across the glow formula switch at 6 |
| Emphasis.NoEmphasisMonotone | src/app/page.tsx:305-306 | the "No" opacity and font size never increase as attempts grow |
| Emphasis.YesScaleCapUnreached | src/app/page.tsx:169 | for every reachable count (at most 12) the scale is the unclamped 1 + 0.065 * attempts, below 1.8 |
| Emphasis.NoDecayFloorsUnreached | src/app/page.tsx:305-306 | for every reachable count, opacity and font size are their unclamped linear formulas, above 0.75 and 13 |
| Emphasis.FirstAttemptScale | src/app/page.tsx:169 | after one failed attempt the "Yes" scale is 1.065 |
| Evasion.InitialInv | src/app/page.tsx:51-59 | the mount state (0 attempts, index -1, no position, all flags off) satisfies the invariant and accepts a trigger |
| Evasion.NextAnchor | src/app/page.tsx:139 | the next index is in [0, 7]; it is one more than the current index, or wraps from 7 to 0 |
| Evasion.Step | src/app/page.tsx:105-156 | every event preserves the invariant: attempts in [0, 12], index in [-1, 7], at most one transition active, each active flag with its timer pending. Attempts never decrease, and a gone button never changes |
| Evasion.Run | src/app/page.tsx:105-156 | every sequence of events preserves the invariant, and the attempt count never decreases |
| Evasion.BlockedTriggerIsDropped | src/app/page.tsx:107 | a trigger while shaking, moving, fading or gone changes no state at all |
| Evasion.GoneIsTerminal | src/app/page.tsx:107 | once gone, no sequence of events has any effect |
| Evasion.BoundsAlwaysHold | src/app/page.tsx:51-59 | from mount, whatever happens, attempts stay in [0, 12] and the anchor index stays in [-1, 7] |
| Evasion.NoSkips | src/app/page.tsx:139-147 | every event leaves the index alone or moves it exactly one step round the ring; attempts stay, grow by one, or jump to 12 |
| Evasion.NormalTrigger | src/app/page.tsx:129-131 | on the normal path a trigger only starts the shake: attempts, anchor index, position and the other flags are unchanged |
| Evasion.NormalShakeDone | src/app/page.tsx:131-147 | on the normal path the shake's end adds exactly 1 attempt and starts the move. With a measurable card the index becomes (old + 1) mod 8 and the position is resolved for it; otherwise index and position are unchanged |
| Evasion.FinalPath | src/app/page.tsx:110-127 | on the final path the trigger sets attempts to 12 at once. The shake's end starts the fade and rests the button at anchor 6 if the card is measurable, without touching the index. The fade's end removes the button |
| Evasion.RoundFromIdle | src/app/page.tsx:130-155 | a trigger, shake and settle from idle with a measurable card add one attempt, step the index once and return to idle |
| Evasion.RoundUnmeasurable | src/app/page.tsx:130-155 | a trigger, shake and settle from idle while the card cannot be measured still add one attempt and return to idle, but keep the anchor index and the last position |
| Evasion.RelocationsCycle | src/app/page.tsx:139-145 | from a fresh session, after k <= 11 measurable relocations, attempts == k and the index is (k - 1) mod 8. So the anchors are visited 0, 1, ..., 7, 0, ... with no skip, and the button is idle at the position resolved for that anchor |
| Evasion.FullSession | src/app/page.tsx:110-127 | eleven relocations followed by one more trigger end with the button gone, 12 attempts, resting at the bottom-centre anchor, with the terminal label |
| Evasion.NoButton.constructor | src/app/page.tsx:51-59 | the component's initial state is the mount state |
| Evasion.NoButton.Text | src/app/page.tsx:311 | the rendered label is the label rule applied to the current count, in every state; from 11 attempts on it is the terminal message |
| Evasion.NoButton.MoveNoButton | src/app/page.tsx:105-131 | the trigger handler performs `Step` on a trigger, and changes no field when blocked; on the normal path it leaves the count, the anchor index and the position as they were |
| Evasion.NoButton.ShakeElapsed | src/app/page.tsx:114-155 | the 120 ms callback performs `Step` on the shake's end (normal or final path); attempts grow by one or sit at 12 |
| Evasion.NoButton.MoveElapsed | src/app/page.tsx:154 | the 500 ms callback ends the move and the button accepts triggers again |
| Evasion.NoButton.FadeElapsed | src/app/page.tsx:123-125 | the 800 ms callback marks the button gone |
| Reveal.StageAt | src/app/page.tsx:413-429 | the stage reached at time t shows the card iff t >= 100, the message iff t >= 400, the media container iff t >= 1200 and the rest iff t >= 1800 |
| Reveal.TimersFollowStages | src/app/page.tsx:413-429 | the four independent timers always give exactly the flags of one stage, so the flags come on in the order card, message, media, rest |
| Reveal.RevealIsForwardOnly | src/app/page.tsx:413-429 | stages only move forward in time, and a flag once on stays on |
| Reveal.CelebrationScreen.constructor | src/app/page.tsx:390-397 | on mount every flag is off, nothing is replaying, and `gifLoaded` starts as the preload flag |
| Reveal.CelebrationScreen.AdvanceTo | src/app/page.tsx:413-429 | after time advances to t, the flags are those of `StageAt(t)`, no flag turned off, and nothing else changed |
| Reveal.CelebrationScreen.GifSettled | src/app/page.tsx:400-411 | a fallback load ending in success or failure marks the media loaded, so the placeholder is gone |
| Reveal.CelebrationScreen.HandleReplay | src/app/page.tsx:440-445 | the restart action disables the restart button at once |

## Left out

- Markup, CSS and inline styles are not modelled. This includes the hint
  and attempt-counter paragraphs, which only display `noAttempts`.
- `Confetti` and the background layer are not modelled: they are
  randomised decoration.
- `MainCard`, `Footer` and the module-level media preload are not
  modelled; the preload fetches over the network. Whether the media was
  preloaded is the constructor parameter of `CelebrationScreen`.
- The `yesBounce` flag and its 400 ms timer are not modelled: they are a
  cosmetic translation of the "Yes" button.
- `gifAnimating` is not modelled: it is set from `requestAnimationFrame`
  plus 50 ms.
- The page reload that follows the restart action is not modelled, nor
  `console.log` in `handleYesClick`.
- The switch from the proposal screen to the celebration screen is not
  modelled: the two controllers are modelled separately.
- Clearing the celebration timers on unmount is not modelled.
- DOM measurement and viewport size are parameters, not reads of the page.
- Real-time scheduling is not modelled. Timers are discrete events, and
  the reveal uses an exact millisecond clock.
- IEEE floating point is not modelled: numbers are exact `real`s.
- Triggers are assumed to see the state left by the previous event. This
  is the order in which React re-renders between discrete events. The
  model does not capture a stale closure in which two triggers fire
  within one render.
- The closure's captured anchor index is not modelled separately. The
  shake callback advances from the current field. The two are equal,
  because nothing else can change the index while the shake is pending.
  The layout is read when the callback fires, as in the source.
- Anchor indices outside [0, 7] are not modelled: the source would throw
  on them, and its callers only pass `(currentAnchorIndex + 1) % 8` and 6.
