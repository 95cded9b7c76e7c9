# Portfolio site logic, modelled and verified in Dafny

This is a Dafny model of the decision logic in a single-page React
portfolio site. Most of the site is view markup. The parts modelled here are
the ones that decide something:

- **Intro splash** (`logo_animation.dfy`, module `LogoAnimation`). A
  four-stage sequencer, `pulse → emerge → zoom → settle`, driven by timers at
  2500, 4000 and 5500 ms. A completion callback fires at 7000 ms, and the
  effect's cleanup cancels every pending timer. The mounted component is the
  class `Splash`. It runs over a simulated clock in whole milliseconds and
  holds an explicit set of pending timers. The reference functions `StageAt`,
  `CompletionsBy` and `StagesThrough` say what a never-unmounted instance
  shows at time t. `Splash.AdvanceTo` fires every due timer, earliest first,
  and is proved to reach exactly that state. The visual targets (container
  scale, its transition duration, offsets and opacities) are pure functions
  of the stage.
- **Floating shapes on the home page** (`animated_shapes.dfy`, module
  `AnimatedShapes`):
  - the padding;
  - scatter targets drawn from `Math.random()`, with each draw a parameter in
    [0, 1);
  - the centred stack targets;
  - the inner rotate/scale and wobble keyframes.

  The class `ShapesStage` holds the measured size, the mode, the `tick`
  counter and the single re-arming timeout. Both the timeout and a click bump
  the tick, and each tick change clears the old timeout before arming a new
  one.
- **Game overlay scroll lock** (`game_modal.dfy`, module `GameModal`). An
  effect keyed on `isOpen` writes `document.body.style.overflow`, and its
  cleanup writes `''`. `Body` and `Modal` model this in place. Two further
  parts are pure functions:
  - which overlay layers render;
  - how clicks reach `onClose` as they bubble through the overlay.
- **Mailing-list form** (`email_signup.dfy`, module `EmailSignup`). The
  address test `/^\S+@\S+\.\S+$/` is decided by `IsValidEmail`. It is proved
  equal to both the regex language (`MatchesPattern`) and a position form:
  no whitespace, an `@` at some i ≥ 1, and a `.` at some j with
  i + 2 ≤ j ≤ len(s) − 2. The class `SignupForm` carries the email field, the
  message and the requests sent. The request's result is a parameter
  (`Completed` or `Threw`).
- **Application shell** (`app.dfy`, module `App`). The splash gate
  `showHomepage`, `currentPage`, navigation, and the scroll-to-top effect on
  each page change. The shell owns a `LogoAnimation.Splash`. When its
  completion callback runs, the gate opens and the splash unmounts. The gate
  never closes again. From then on exactly one of the ten page views
  renders.
- **Card routing and labels**:
  - `data_page.dfy`: company name → page, where DuPont goes nowhere;
  - `creative_page.dfy`: project title → page, with an exact,
    case-sensitive comparison and the full-width rule for index 2;
  - `company_card.dfy`: `String(index + 1).padStart(2, '0')`, with
    ECMAScript's StringPad written out.
- **Tilt input of a project card** (`project_card.dfy`, module
  `ProjectCard`). The pointer is normalised to offsets in [−0.5, 0.5] on
  each axis, and mouse leave resets them.

Page identifiers are the datatype `Pages.Page`. `Wrappers.Option` stands in
for nullable values (a missing element ref, a missing measurement).

Two behaviours of the code are worth knowing, and the model states them:

- The overlay's effect and its cleanup write `''` on every close path. They
  never read or restore whatever overflow value the body had before opening
  (src/components/GameModal.tsx:14-23, `GameModal.PriorNotRestored`).
- The `Math.max(1, …)` floor on the scatter span
  (src/components/Homepage.tsx:39) lets x pass `w − pad` when
  `w − 2·pad < 1` (`AnimatedShapes.TinyStageEscapesInterior`). Once
  `w − 2·pad ≥ 1`, x stays inside `[pad, w − pad)`
  (`AnimatedShapes.ScatterInsideInterior`).

## Model

| member | source | states |
|---|---|---|
| LogoAnimation.DelaysAreRunningDwells | src/components/LogoAnimation.tsx:13-30 | Each timer's delay is the running sum of the stage dwell times 2500, 1500, 1500 and 1500 ms, and the completion delay is 7000 = 2500+1500+1500+1500. |
| LogoAnimation.StageAt | src/components/LogoAnimation.tsx:9-25 | Starting from `pulse`, the stage shown at t is `pulse` iff t < 2500, `emerge` iff 2500 ≤ t < 4000, `zoom` iff 4000 ≤ t < 5500, and `settle` iff t ≥ 5500. |
| LogoAnimation.PendingAt | src/components/LogoAnimation.tsx:13-30 | A timer is still pending at t iff its delay has not been reached. |
| LogoAnimation.CompletionsBy | src/components/LogoAnimation.tsx:28-30 | Without teardown, the callback has run at most once, and exactly once iff t ≥ 7000. |
| LogoAnimation.StagesThrough | src/components/LogoAnimation.tsx:9-25 | The history of stage values starts at `pulse` and ends at the current stage. |
| LogoAnimation.StageMonotone | src/components/LogoAnimation.tsx:13-25 | Stages only move forward in time. |
| LogoAnimation.HistoryIsPrefix | src/components/LogoAnimation.tsx:13-25 | Every history is a prefix of `pulse, emerge, zoom, settle`, and an earlier history is a prefix of a later one. No stage repeats and none is skipped: consecutive entries have consecutive ranks. |
| LogoAnimation.CompletionAfterSettle | src/components/LogoAnimation.tsx:23-30 | Once the callback has run, the stage is `settle` and all four stages have been shown. |
| LogoAnimation.ContainerScale | src/components/LogoAnimation.tsx:40 | The container scale is 5 iff the stage is `zoom`, and 1 otherwise. |
| LogoAnimation.ScaleDuration | src/components/LogoAnimation.tsx:57 | The scale transition lasts 1.5 s iff the stage is `zoom` or `settle`, and 0 iff it is `pulse` or `emerge`. |
| LogoAnimation.StageTargets | src/components/LogoAnimation.tsx:66-67 | In `settle`: logo y −80 and opacity 0. Otherwise: y 0 and opacity 1. The name heading (line 181) and the overlay (line 199) have opacity 1 − logo opacity. |
| LogoAnimation.ZoomBeforeFade | src/components/LogoAnimation.tsx:40-67 | Whenever the container zooms to 5, the logo is still fully visible and the zoom takes 1.5 s. |
| LogoAnimation.Earliest | src/components/LogoAnimation.tsx:13-30 | Picks a pending timer whose delay is no later than any other pending timer's, which is the order in which a timer queue dispatches them. |
| LogoAnimation.Splash.constructor | src/components/LogoAnimation.tsx:9-30 | On mount the stage is `pulse`, all four timers are pending, the clock is 0 and no callback has run. |
| LogoAnimation.Splash.Fire | src/components/LogoAnimation.tsx:13-30 | A firing timer leaves the pending set. A stage timer sets its target stage and appends it to the history. The completion timer counts one callback and changes no stage. |
| LogoAnimation.Splash.AdvanceTo | src/components/LogoAnimation.tsx:11-30 | While mounted, running the clock to t fires due timers earliest first and reaches exactly the reference state at t (stage, history, callbacks, pending set). After teardown nothing changes. The callback count never exceeds 1. |
| LogoAnimation.Splash.Unmount | src/components/LogoAnimation.tsx:32-37 | The cleanup clears all pending timers and leaves stage, history and callback count as they were. |
| LogoAnimation.UnmountBeforeCompletion | src/components/LogoAnimation.tsx:28-37 | Torn down at any t0 < 7000, the callback never runs however long the clock continues, and the stage stays at its value at t0. |
| LogoAnimation.RunMounted | src/components/LogoAnimation.tsx:28-30 | Left mounted, the callback has run exactly once iff t ≥ 7000, and never more than once. |
| AnimatedShapes.Pad | src/components/Homepage.tsx:36 | The padding is non-negative and at most half of each side, and it is 0 when a side is 0. |
| AnimatedShapes.Span | src/components/Homepage.tsx:39-40 | The scatter interval width is at least 1 and at least `side − 2·pad`, and equals the latter once that is ≥ 1. |
| AnimatedShapes.ScatterCoord | src/components/Homepage.tsx:39-40 | A scatter coordinate lies in `[pad, pad + span)`. |
| AnimatedShapes.ZIndexFromDraw | src/components/Homepage.tsx:43 | A scatter z-index lies in 1..9. |
| AnimatedShapes.ScatterTargetOf | src/components/Homepage.tsx:38-44 | For any draws, x and y lie in `[pad, pad + max(1, side − 2·pad))`, rotate in [−25, 25), scale in [0.95, 1.15), and z-index in 1..9. |
| AnimatedShapes.DegenerateStageScatter | src/components/Homepage.tsx:36-40 | While a side measures 0 (as on the initial 0×0 stage of line 12), pad is 0 and the coordinates are finite values in `[0, max(1, side))`. On 0×0 they lie in [0, 1). |
| AnimatedShapes.ScatterInsideInterior | src/components/Homepage.tsx:36-39 | When `w − 2·pad ≥ 1`, scatter x lies in `[pad, w − pad)`. |
| AnimatedShapes.TinyStageEscapesInterior | src/components/Homepage.tsx:39 | On a 0.5×0.5 stage, a draw of 0.9 puts x beyond `w − pad`. |
| AnimatedShapes.StackTargets | src/components/Homepage.tsx:46-50 | The three stack targets share x = w/2. Their y values are h/2 − 0.12·m, h/2 and h/2 + 0.12·m, ordered and symmetric about h/2. Their z-indices are 11, 12 and 13, all above any scatter z-index. |
| AnimatedShapes.Targets | src/components/Homepage.tsx:52-54 | In stack mode the three targets are exactly the stack targets. In scatter mode each target lies within the scatter bounds. |
| AnimatedShapes.NoMixedModes | src/components/Homepage.tsx:52-54 | Either all three tokens are in the stack layer (z > 9) or all are in the scatter layer (z ≤ 9). The former holds iff the mode is stack. |
| AnimatedShapes.InnerTargets | src/components/Homepage.tsx:77-134 | In stack mode the inner shapes target rotate 0 and scale 1. The triangle has no rotate key. Every rotate value lies in [−25, 25) and every scale value in [0.95, 1.15). |
| AnimatedShapes.WobbleOf | src/components/Homepage.tsx:57-60 | The wobble keyframes are x = [0, b, 0, −b, 0] and y = [0, −b, 0, b, 0]: five entries each, starting and ending at 0, reaching +b and −b at entries 1 and 3 of x. y mirrors x, and x is antisymmetric about its midpoint. |
| AnimatedShapes.WobbleBase | src/components/Homepage.tsx:80-140 | The wobble amplitudes are 4, 5 and 6, all within [4, 6]. |
| AnimatedShapes.NextMode | src/components/Homepage.tsx:29 | The next mode is stack iff the draw is < 0.35. |
| AnimatedShapes.RetargetDelay | src/components/Homepage.tsx:31 | The re-arm delay lies in [4000, 8000) ms. |
| AnimatedShapes.ShapesStage.constructor | src/components/Homepage.tsx:12-33 | On mount the stage is 0×0, the mode is scatter and the tick is 0, with one timeout armed for tick 0. |
| AnimatedShapes.ShapesStage.Measure | src/components/Homepage.tsx:17-19 | The size becomes the measured rectangle when one is available and the observer is still connected. Otherwise it is unchanged. The timeout invariant is kept. |
| AnimatedShapes.ShapesStage.Wait | src/components/Homepage.tsx:27-33 | The clock may advance up to, but not reaching, the pending timeout, and the invariant holds. |
| AnimatedShapes.ShapesStage.Rearm | src/components/Homepage.tsx:27-33 | The effect clears whatever was pending and arms exactly one timeout for the current tick, due after the drawn delay. |
| AnimatedShapes.ShapesStage.TimeoutFires | src/components/Homepage.tsx:28-31 | When the timeout fires, the mode becomes stack iff the draw is < 0.35, the tick rises by exactly 1, and exactly one new timeout is armed 4000–8000 ms later. |
| AnimatedShapes.ShapesStage.Click | src/components/Homepage.tsx:63 | A click bumps the tick by 1 and leaves the mode alone. The old timeout is cleared, so exactly one timeout (a new one) is pending. |
| AnimatedShapes.ShapesStage.Unmount | src/components/Homepage.tsx:24-33 | Unmounting leaves nothing pending. |
| AnimatedShapes.ShapesStage.CurrentTargets | src/components/Homepage.tsx:52-54 | In stack mode the current render targets are the stack targets of the measured size. In scatter mode each of the three has x and y in `[pad, pad + span)` of the measured size and a z-index in 1..9. |
| GameModal.EffectValue | src/components/GameModal.tsx:15-19 | The effect writes `'hidden'` iff the overlay is open, and `''` otherwise. |
| GameModal.OverflowFollowsLastOpen | src/components/GameModal.tsx:14-23 | After mounting and any sequence of prop changes, the overflow depends only on the latest `isOpen`. The prior value plays no part. |
| GameModal.PriorNotRestored | src/components/GameModal.tsx:14-23 | Opening then closing over a body whose overflow was `"scroll"` leaves `''`, not `"scroll"`. |
| GameModal.OnCloseCalls | src/components/GameModal.tsx:40-62 | A click on the backdrop or the close button calls `onClose` exactly once. A click on the panel or the container calls it zero times, because the panel stops propagation. |
| GameModal.Rendered | src/components/GameModal.tsx:27 | Backdrop, panel and close button render iff the overlay is open. |
| GameModal.Modal.constructor | src/components/GameModal.tsx:14-19 | On mount the effect writes the value for the initial `isOpen`. |
| GameModal.Modal.SetOpen | src/components/GameModal.tsx:14-23 | After a prop change the overflow is the effect value of the new prop, via cleanup then effect. Repeating the same value changes nothing. |
| GameModal.Modal.Unmount | src/components/GameModal.tsx:20-22 | The cleanup writes `''` whether the overlay was open or not. |
| GameModal.Modal.Visible | src/components/GameModal.tsx:27 | Something is on screen iff the overlay is mounted and open. |
| GameModal.OpenCloseUnmount | src/components/GameModal.tsx:14-23 | Over any prior overflow, opening gives `'hidden'`, closing gives `''`, and unmounting gives `''`. |
| GameModal.RunProps | src/components/GameModal.tsx:14-23 | Mounting a modal over any prior overflow and passing it any sequence of props via `SetOpen` ends with exactly the overflow the reference `OverflowAfter` gives, which is the effect value of the last prop. |
| GameModal.UnmountWhileOpen | src/components/GameModal.tsx:20-22 | Unmounting while open releases the lock and leaves `''`. |
| EmailSignup.PatternToPositions | src/components/AarohaPage.tsx:27 | Every string in the regex language has no whitespace, an `@` at some i ≥ 1, and a `.` at some j with i + 2 ≤ j ≤ len(s) − 2. |
| EmailSignup.PositionsToPattern | src/components/AarohaPage.tsx:27 | Every string of that position form is in the regex language. |
| EmailSignup.PatternIffPositions | src/components/AarohaPage.tsx:27 | The regex language and the position form are the same set of strings. |
| EmailSignup.IsValidEmail | src/components/AarohaPage.tsx:27 | The test accepts a string iff the string is in the language of `^\S+@\S+\.\S+$`, where `\S` excludes exactly the characters of ECMAScript's WhiteSpace and LineTerminator. |
| EmailSignup.AcceptsPlainAddress | src/components/AarohaPage.tsx:27 | `"a@b.c"` is accepted. |
| EmailSignup.AcceptsDoubledSeparators | src/components/AarohaPage.tsx:27 | `"a@@b.c.d"` is accepted: extra `@` and `.` characters are themselves non-space. |
| EmailSignup.RejectedExamples | src/components/AarohaPage.tsx:27 | `"a@b"`, `"@b.c"`, `"a@b."`, `"a@.c"` and `"a b@c.d"` are rejected. |
| EmailSignup.SignupForm.constructor | src/components/AarohaPage.tsx:19-20 | Email and message start empty, and nothing has been sent. |
| EmailSignup.SignupForm.Type | src/components/AarohaPage.tsx:478 | Typing sets the email to exactly the input value. |
| EmailSignup.SignupForm.Submit | src/components/AarohaPage.tsx:25-33 | An invalid address sets the "Please enter a valid email." message and sends nothing. A valid one is sent once, and message and email are left for the outcome. |
| EmailSignup.SignupForm.RequestSettles | src/components/AarohaPage.tsx:33-44 | On completion the message becomes the success text and the email is cleared. On a thrown error the message becomes "Something went wrong. Try again?" and the email is kept. |
| EmailSignup.SignupForm.MessageLines | src/components/AarohaPage.tsx:502 | The message paragraph renders iff the message is non-empty, and then shows the message. |
| EmailSignup.SubmitOnce | src/components/AarohaPage.tsx:25-44 | For one submit of a typed address, exactly one message line shows: invalid, success or failure as the case may be. Only a valid address is sent, and only a completed request clears the field. |
| Pages.Id | src/App.tsx:16 | Each page has a non-empty identifier literal. |
| Pages.IdInjective | src/App.tsx:16 | Distinct pages have distinct identifiers. |
| App.Slot | src/App.tsx:34-43 | A page slot renders its page iff that page is current, and nothing otherwise. |
| App.Render | src/App.tsx:28-45 | With the gate closed only the splash renders, whatever the page. With it open, exactly one page view renders, the current one. The ten conditions are exclusive and exhaustive. |
| App.Site.constructor | src/App.tsx:15-21 | Initially the gate is closed and the page is `home`. The splash starts at `pulse`, and the first effect run scrolls to 0. |
| App.Site.Elapse | src/App.tsx:30-31 | The gate is open iff it already was or the splash's callback has run (t ≥ 7000). It never closes again. Until it opens, the splash shows its reference stage. Page and scroll are untouched. |
| App.Site.Navigate | src/App.tsx:19-26 | Navigation sets the current page and nothing else in the app state. A change of page scrolls to top 0, and re-selecting the current page does not. |
| App.Site.UserScrolls | src/App.tsx:19-21 | The window's scroll position is whatever the visitor scrolled to, and it is what the effect resets. |
| App.Visit | src/App.tsx:15-43 | Before 7000 ms only the splash is on screen. From then on, after navigating to p, exactly p is on screen, and a change of page lands at the top. |
| ProjectCard.Normalise | src/components/ProjectCard.tsx:28-31 | The offset lies in [−0.5, 0.5] iff the pointer is within the card. It is −0.5 iff the pointer is at the near edge, 0 iff at the centre, and 0.5 iff at the far edge. |
| ProjectCard.NormaliseRoundTrip | src/components/ProjectCard.tsx:28-31 | The offset determines the pointer position: denormalising gives it back. |
| ProjectCard.NormaliseMonotone | src/components/ProjectCard.tsx:28-31 | Normalisation preserves the order of pointer positions. |
| ProjectCard.TiltCard.constructor | src/components/ProjectCard.tsx:14-15 | Both tilt values start at 0. |
| ProjectCard.TiltCard.MouseMove | src/components/ProjectCard.tsx:23-34 | Without an element the values are unchanged. Otherwise both are set from the pointer, relative to the measured rectangle. |
| ProjectCard.TiltCard.MouseLeave | src/components/ProjectCard.tsx:36-39 | Mouse leave resets both values to 0. |
| ProjectCard.MoveInside | src/components/ProjectCard.tsx:23-34 | A pointer inside the card gives offsets in [−0.5, 0.5], and the centre gives (0, 0). |
| ProjectCard.LeaveAfterMove | src/components/ProjectCard.tsx:23-39 | Leaving resets the tilt whatever came before, and leaving again is the same as leaving once. |
| ProjectCard.MoveWithoutElement | src/components/ProjectCard.tsx:14-24 | A move with no element keeps the initial (0, 0). |
| DataPage.CompanyRoute | src/components/DataPage.tsx:204-209 | "Wayfair" routes to `wayfair`, "Grand Circle Travel" and "GCC" to `gcc`, and "The Daily Beast" to `dailybeast`. Every other name routes nowhere. |
| DataPage.CompanyClick | src/components/DataPage.tsx:204-209 | A click makes at most one call, and none when the callback is absent. It makes one exactly when the name routes, and to that page. |
| DataPage.ListedCardsRoute | src/components/DataPage.tsx:203-209 | Over the company list (Wayfair, Grand Circle Travel, The Daily Beast, DuPont, in order), the first three cards navigate to their pages and the DuPont card makes no call. |
| DataPage.DuPontUnreachable | src/components/DataPage.tsx:204-209 | No card click ever navigates to the DuPont page. |
| DataPage.RoutesDistinct | src/components/DataPage.tsx:204-209 | Listed cards that navigate open pairwise different pages. |
| DataPage.CardLabels | src/components/DataPage.tsx:203 | The cards at positions 0–3 are labelled "01" to "04". |
| CreativePage.ProjectRoute | src/components/CreativePage.tsx:232-240 | "Aaroha", "Shaktivikasa" and "Movement" route to their pages. Any title outside the list, including any change of case, routes nowhere. |
| CreativePage.ProjectClick | src/components/CreativePage.tsx:232-240 | A click makes at most one call, and none when the callback is absent. It makes one exactly when the title is listed, and to its page. |
| CreativePage.ListedProjectsRoute | src/components/CreativePage.tsx:221-240 | Each card in the list (Aaroha, Shaktivikasa, Movement, in order) routes to its own page. "aaroha" and "ShaktiVikasa" route nowhere. |
| CreativePage.OnlyMovementFullWidth | src/components/CreativePage.tsx:224-226 | Of the listed projects, only the last one, Movement at index 2, gets the full-width wrapper. |
| CompanyCard.Decimal | src/components/CompanyCard.tsx:34 | `String(n)` for n ≥ 0 is a non-empty string of digits, with no leading zero when n > 0. It is one character long iff n < 10. |
| CompanyCard.ParseDecimalOfDecimal | src/components/CompanyCard.tsx:34 | Reading `String(n)` back as a decimal gives n. |
| CompanyCard.ParseDecimalLeadingZero | src/components/CompanyCard.tsx:34 | A leading `'0'` does not change the value read. |
| CompanyCard.Filler | src/components/CompanyCard.tsx:34 | The truncated filler has the requested length, and its character k is the fill's character k mod the fill's length: the fill repeated, then cut. |
| CompanyCard.PadStart | src/components/CompanyCard.tsx:34 | `padStart` returns the string unchanged when it is already long enough or the fill is empty. Otherwise the result has exactly the target length, ends with the original string, and is preceded by the fill repeated and cut to the missing length. |
| CompanyCard.IndexLabel | src/components/CompanyCard.tsx:34 | The label is `String(index + 1)` preceded by zeros up to length 2: its length is the larger of 2 and the decimal's length, it ends with the decimal, and every character before it is `'0'`. |
| CompanyCard.IndexLabelDigits | src/components/CompanyCard.tsx:34 | Every label is at least two characters long and all digits. |
| CompanyCard.IndexLabelSingleDigit | src/components/CompanyCard.tsx:34 | For index 0–8 the label is `'0'` followed by the digit of index + 1. |
| CompanyCard.IndexLabelNoPadding | src/components/CompanyCard.tsx:34 | For index ≥ 9 the label is the plain decimal of index + 1. |
| CompanyCard.IndexLabelRoundTrip | src/components/CompanyCard.tsx:34 | Reading a label as a decimal number gives index + 1. |

## Left out

- Scroll-linked values (`useScroll`, `useTransform`, `useSpring`) in the pages, in the navigation bar and in the card tilt springs. They are computed inside the animation library, which is not part of this model.
- Keyframe arrays other than the floating shapes' wobble offsets and inner rotate/scale keyframes: the splash's logo and text keyframes, the drop-shadow filter, the page and card entrance animations. Also every easing curve and every transition duration other than the splash container's scale duration. They are rendering handed to the animation library.
- The random decorative particles in the game overlay and on the ShaktiVikasa page. They are visual noise with no decision in them.
- The sign-up request itself (`fetch` to the form endpoint, `encodeURIComponent`, `console.error`). This is network I/O, so its result is the `Outcome` parameter.
- EmailSignup.SignupForm.Submit: the browser's own `required` and `type="email"` checks, which run before the submit handler, are not modelled. The model starts at the handler's regex test.
- EmailSignup.SignupForm.Submit: submits made while a request is in flight are modelled only as a count. Which outcome belongs to which request is not tracked.
- DOM APIs: `ResizeObserver`, `getBoundingClientRect` and `window.scrollTo`. Measurements are inputs, and the scroll position is a field.
- Real-time scheduling. Timers run on a simulated clock with explicit pending timers. Equal-time tie-breaking beyond delay order and the JavaScript event loop are not modelled.
- LogoAnimation.Splash.AdvanceTo: the clock counts whole milliseconds. Browser timer clamping and late firing are not modelled.
- Re-running the splash effect when its `onAnimationComplete` dependency changes is not modelled. While the splash is shown, the shell's state never changes (no page is rendered that could navigate), so the shell never re-renders and the timers are never restarted.
- The static pages (Wayfair, Grand Circle, Daily Beast, DuPont, Movement, ShaktiVikasa apart from the overlay it hosts), the creative and data project cards, and the navigation bar with its show/hide connect dialog. They are markup only.
- The boolean on the ShaktiVikasa page that drives the game overlay. It reaches the model as `Modal.SetOpen`.
- Arithmetic is over mathematical reals. IEEE rounding, NaN and infinities are not modelled.
- ProjectCard.TiltCard.MouseMove: requires a rectangle of positive width and height. The handler divides without a guard, so a zero-size card gives Infinity or NaN offsets, which reals cannot represent.
- ProjectCard.Normalise: same positive-extent precondition, for the same reason.
- GameModal.OnCloseCalls: only bubbling through the overlay's own elements is modelled. Hit-testing (which layer a click at a point lands on) is not: the full-screen container at z-index 101 covers the backdrop. Exit animations that keep layers on screen after `isOpen` turns false are also left out.
- AnimatedShapes.ShapesStage: scatter targets are re-drawn on every render because the component calls `Math.random()` while rendering. The model takes the draws of one render as parameters. The `key`-driven remounting of the motion elements is not modelled.
- CompanyCard.Decimal: `String(n)` switches to exponent notation from 10^21, and that is not modelled. The model gives plain decimal digits for every n.
