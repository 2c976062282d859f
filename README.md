# Portfolio site: carousel, contact form and project cards

This project models, in Dafny, the three pieces of behaviour in a personal
portfolio site that are not just layout:

- **The certificate carousel** in the achievements view
  (`src/components/Achievements.jsx`). It is a strip holding the certificate
  list twice, moved left at 120 pixels per second. Motion is planned in
  segments, each ending at the next multiple of the loop period
  (`sliderWidth`, half the strip's scroll width). An update hook moves the
  offset forward by one period once it has travelled a full period. Completing
  a segment plans the next one. Hovering stops the motion and leaving plans a
  new segment from the frozen offset. Module `Carousel` has the pure planning
  arithmetic and the class `Slider` for the animation state.
- **The contact form** (`src/components/Contact.jsx`). Module `ContactForm`
  holds the validator `Validate`, with each of its three patterns proved equal
  to a declarative definition. The class `Form` models the submit handler and
  the email relay's success and failure replies as state transitions.
- **The project cards** (`src/components/Projects.jsx`). Module `ProjectCards`
  holds the single expanded-card state with its toggle rule, the 140-character
  preview, and when the View More / View Less button appears.

Offsets, widths and times are Dafny `real`s. JavaScript's `%` is modelled as
the remainder of division truncated toward zero (`Carousel.JsRem`), not as
Dafny's Euclidean `%`. The animation library's frame loop becomes an explicit
`Slider.Tick(dt)` step. Each tick takes the linear tween's value at the new
elapsed time and runs the update hook on it. Once the segment's duration is
up, the tick completes the segment and plans the next one.

Behaviour decided by the code:

- The update hook adds exactly one period whenever `|latest| >= sliderWidth`.
  It does not reduce the offset modulo the period (`Carousel.Wrap`).
- The period is half the strip's scroll width. The items are laid out with
  spacing between them (`space-x-4 md:space-x-6`): a doubled row of 2n items has
  2n - 1 gaps, so half its scroll width is half a gap short of the distance at
  which the second copy repeats the first (`Carousel.HalfTrackIsPeriod`). The
  two agree only without spacing. The model keeps the code's period.
- Leaving the strip always re-plans from the current offset, even when a
  segment is still running. Starting a tween on the motion value replaces the
  one in flight. `Carousel.ReplanKeepsTarget` shows that re-planning mid-segment
  aims at the same wrap point and takes exactly the remaining time.
- The code never checks the strip's width or the speed. The speed is the
  constant 120. A positive scroll width is a precondition of `Slider.Start`:
  zero would divide by zero. No error values are modelled, because the code
  raises none.
- A tick that overshoots a segment's end stops at the target. The next
  segment starts with zero elapsed time, so the overshoot is dropped.

## Model

| member | source | states |
|---|---|---|
| `Carousel.JsRem` | src/components/Achievements.jsx:36 | `currentX % sliderWidth` has the sign of `currentX`, magnitude below the period, and differs from `currentX` by a whole number of periods |
| `Carousel.JsRemUnique` | src/components/Achievements.jsx:36 | those three properties determine the remainder uniquely |
| `Carousel.RemainingDistance` | src/components/Achievements.jsx:36 | the remaining distance lies in (0, w], and equals w exactly when the offset is a whole number of periods (including the initial 0) |
| `Carousel.NoRemainderIffMultiple` | src/components/Achievements.jsx:36 | the remainder is zero exactly on period boundaries |
| `Carousel.Plan` | src/components/Achievements.jsx:34-39 | a segment starts at the current offset, ends strictly below it and at most one period below it, and has positive duration with distance = speed × duration |
| `Carousel.PlanTargetIsNextBoundary` | src/components/Achievements.jsx:35-39 | from a non-positive offset, the target is the next multiple of the period strictly below it |
| `Carousel.NextBoundaryUnique` | src/components/Achievements.jsx:35-39 | that multiple is the only one within one period below the offset |
| `Carousel.Position` | src/components/Achievements.jsx:39-41 | the linear tween stays between start and target, and is clamped to the target once the duration has elapsed |
| `Carousel.PositionIsLinear` | src/components/Achievements.jsx:28-41 | within a segment, the offset after t seconds is `start - 120·t`, strictly above the target |
| `Carousel.ReplanKeepsTarget` | src/components/Achievements.jsx:30-39 | re-planning from any tween value of a running segment keeps the same target and needs exactly the time left |
| `Carousel.ResumeKeepsTarget` | src/components/Achievements.jsx:30-46 | from an offset in (-w, 0], the hooked offset frozen by a pause equals the tween value, and resuming from it keeps the target and needs exactly the time left |
| `Carousel.Wrap` | src/components/Achievements.jsx:42-46 | the hook shifts by exactly one period when abs(latest) >= w and leaves the offset unchanged otherwise; it keeps offsets non-positive and maps [-2w, -w] into [-w, 0] |
| `Carousel.WrapCongruent` | src/components/Achievements.jsx:42-46 | the hook changes the offset by a whole number of periods, so the picture does not jump |
| `Carousel.WindowPreserved` | src/components/Achievements.jsx:39-47 | with a fixed period, an offset in [-w, 0] stays in [-w, 0] throughout the next segment |
| `Carousel.OpenWindowPreserved` | src/components/Achievements.jsx:34-46 | an offset in (-w, 0] stays in (-w, 0] throughout the segment planned from it, hook included, so every pause point of a steady slider is a valid resume point |
| `Carousel.SegmentCompletes` | src/components/Achievements.jsx:39-47 | a segment planned from (-w, 0] completes at offset 0, and the next segment is a full period at 120 px/s, so the speed is the same across any number of wraps |
| `Carousel.Doubled` | src/components/Achievements.jsx:195 | the rendered strip has twice the items, and item i + n equals item i |
| `Carousel.CopiesRepeat` | src/components/Achievements.jsx:190-195 | in the doubled strip with a fixed gap, item i + n starts exactly one repeat distance (n items and n gaps) after item i |
| `Carousel.HalfTrackIsPeriod` | src/components/Achievements.jsx:32 | half the doubled strip's scroll width is the repeat distance minus half a gap, and equals it exactly when there is no gap |
| `Carousel.Slider.constructor` | src/components/Achievements.jsx:25-27 | the offset starts at 0, with no animation handle, inside the window (-width, 0] |
| `Carousel.Slider.Animate` | src/components/Achievements.jsx:34-49 | installs `Plan(offset, width)` as the running segment, with zero elapsed time |
| `Carousel.Slider.Start` | src/components/Achievements.jsx:30-52 | does nothing without the strip element; otherwise sets the period to half the scroll width and plans from the unchanged offset; an offset inside the new window keeps the slider in it |
| `Carousel.Slider.Pause` | src/components/Achievements.jsx:54-56 | stops the running segment and leaves the offset and segment unchanged; with no running animation nothing changes, so a second pause is a no-op; the window (-width, 0] is kept |
| `Carousel.Slider.Tick` | src/components/Achievements.jsx:39-48 | a stopped strip does not move; a running one takes the hooked tween value, and on completion plans the next segment from it and stays running; the window (-width, 0] is kept, and inside it a completed segment returns to 0 and plans a full period |
| `Carousel.PauseResumeScenario` | src/components/Achievements.jsx:189 | with a 1000-pixel period: 2 s of travel reaches -240, 5 s of hovering keeps -240, and 1 s after leaving the offset is -360 |
| `Carousel.FullLoopScenario` | src/components/Achievements.jsx:42-47 | with a 1000-pixel period, each 1000/120 s completes one wrap back to 0 |
| `ContactForm.AllNameCharsIff` | src/components/Contact.jsx:18 | the character-class scan accepts exactly the strings whose characters are all ASCII letters or whitespace |
| `ContactForm.NameMatchesIff` | src/components/Contact.jsx:18-19 | `^[A-Za-z\s]+$` matches exactly the non-empty strings of letters and whitespace |
| `ContactForm.DomainFromIff` | src/components/Contact.jsx:20 | the scan after an `@` finds a `.` exactly when some `.` completes the pattern from that `@` |
| `ContactForm.EmailFromIff` | src/components/Contact.jsx:20 | scanning from position i finds exactly the pattern matches whose `@` is at or after i |
| `ContactForm.EmailMatchesIff` | src/components/Contact.jsx:20-21 | the unanchored `\S+@\S+\.\S+` matches exactly when some `@` has a non-space before it, followed by non-space characters, then `.`, then a non-space character |
| `ContactForm.TrimStart` | src/components/Contact.jsx:22 | the result is a suffix of the input, only whitespace is removed, and it does not start with whitespace |
| `ContactForm.TrimEnd` | src/components/Contact.jsx:22 | the result is a prefix of the input, only whitespace is removed, and it does not end with whitespace |
| `ContactForm.TrimIsInnerStretch` | src/components/Contact.jsx:22 | `trim()` keeps one contiguous stretch, and everything cut off on either side is whitespace |
| `ContactForm.Validate` | src/components/Contact.jsx:16-25 | the error map has a key per failing field (name, email, trimmed message shorter than 5), each with its fixed message |
| `ContactForm.NoErrorsIffValid` | src/components/Contact.jsx:34 | the error map is empty exactly when all three fields are valid |
| `ContactForm.FailureText` | src/components/Contact.jsx:62-66 | the error's non-empty `text` wins, then its non-empty `message`, then the fixed default; never empty |
| `ContactForm.Form.constructor` | src/components/Contact.jsx:6-14 | empty fields, no errors, blank status and message, not loading |
| `ContactForm.Form.Edit` | src/components/Contact.jsx:105-141 | an input's change handler replaces that one field and nothing else |
| `ContactForm.Form.Submit` | src/components/Contact.jsx:27-47 | errors become the validation result and status and error text are cleared; a request is sent exactly when all fields are valid, and only then does loading become true |
| `ContactForm.Form.OnSuccess` | src/components/Contact.jsx:50-54 | loading off, status success, all three fields emptied |
| `ContactForm.Form.OnFailure` | src/components/Contact.jsx:57-66 | loading off, status error, error text from `FailureText`, fields kept |
| `ProjectCards.Toggled` | src/components/Projects.jsx:47 | the toggled card becomes the expanded one exactly when it was not; otherwise nothing is expanded |
| `ProjectCards.ToggleTwice` | src/components/Projects.jsx:47 | toggling twice restores the state exactly when no card or this card was expanded |
| `ProjectCards.ToggleSwitches` | src/components/Projects.jsx:47 | toggling a different card moves the expansion to it |
| `ProjectCards.Cards.constructor` | src/components/Projects.jsx:45 | no card is expanded initially |
| `ProjectCards.Cards.Toggle` | src/components/Projects.jsx:45-47 | the single expanded id is updated by the toggle rule, so at most one card is ever expanded |
| `ProjectCards.ToggleScenario` | src/components/Projects.jsx:47 | two clicks on one card collapse it again; a click on another card switches to it |
| `ProjectCards.Preview` | src/components/Projects.jsx:185-187 | the preview is the first min(len, 140) characters plus `"..."`, and the ellipsis is added even to short descriptions |
| `ProjectCards.HasToggleButton` | src/components/Projects.jsx:191 | the button exists exactly when the preview cuts characters off (length > 140) |
| `ProjectCards.ButtonLabel` | src/components/Projects.jsx:202 | the caption is "View Less" exactly when this card is expanded |
| `ProjectCards.CardText` | src/components/Projects.jsx:155-187 | cards with a truthy repository link always show the whole description; others (no link or an empty one) show it when expanded and the preview otherwise |
| `ProjectCards.ShowsButton` | src/components/Projects.jsx:155-191 | the button appears exactly on cards without a truthy repository link whose description is over 140 characters |
| `ProjectCards.EmptyLinkIsCollapsible` | src/components/Projects.jsx:155-191 | an empty link string is falsy: a long description is cut to 140 characters plus the ellipsis, with a button |
| `ProjectCards.ShortCardShowsEllipsis` | src/components/Projects.jsx:185-191 | a short collapsible card has no button, and shows its whole description followed by `"..."` |
| `ProjectCards.CollapsedIsShorter` | src/components/Projects.jsx:185-191 | a collapsed long card shows exactly 143 characters, fewer than the full text plus ellipsis |

## Left out

- Floating point: offsets, widths and times are exact reals, so rounding in the tween and in `%` is not modelled.
- The animation library's internals are not modelled: frame scheduling, easing curves other than linear, `whileHover` springs and the `fadeSlide` entrance variants. `Slider.Tick` stands for a frame.
- `Carousel.Slider.Start`: the strip's `scrollWidth` is a parameter, not a DOM measurement. It is required to be positive because the source does not guard against zero. The mounted check is a boolean parameter.
- `Carousel.Slider`: the period is the code's `scrollWidth / 2`. With spacing between items, each wrap therefore shifts the picture by half a gap (see `Carousel.HalfTrackIsPeriod`). The slider does not model item positions, so it does not show that shift. Item widths and the gap are taken as fixed; responsive breakpoints are not modelled.
- Loading certificate images with `require` inside try/catch is module loading and is not modelled. The strip is generic in its items.
- The email relay call (`emailjs.send`), its service and template ids and key, and console logging are not modelled. `Form.Submit` returns the request parameters, and the reply arrives as `OnSuccess` or `OnFailure`.
- `ContactForm.Form.OnSuccess` / `OnFailure`: the model does not restrict when a reply may arrive; in the source a reply follows a send.
- The 5-second timer that clears the success status is a timer and is not modelled.
- `ContactForm.Form.Submit`: the submit button is disabled while loading, and the browser's own `type="email"` check may block submission. Both are rendering and browser behaviour, so `Submit` is modelled as callable in any state.
- `ContactForm.Validate`: a Dafny character is a Unicode scalar value. JavaScript counts a character outside the Basic Multilingual Plane (an emoji, say) as two UTF-16 code units. So the model's trimmed-length check can reject a message that the site accepts, such as three emoji.
- `ProjectCards.Preview`: the 140-character cut counts scalar values, not UTF-16 code units. For text outside the Basic Multilingual Plane it can keep more text than `slice(0, 140)`, and it never splits a surrogate pair as `slice` can.
- The header, home and skills views and the app shell are static content, DOM side effects or component composition; they are not part of this model.

