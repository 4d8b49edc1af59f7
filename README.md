# Page interactions of a portfolio site, modelled in Dafny

The site's script drives three widgets on one page. This project models each of them with the document reduced to an abstract state:

- **Image carousel** (`ImageSlider`). It holds a cyclic index over a fixed, non-empty list of image sources. It fades in two phases: the image goes transparent, then a deferred swap shows the image at the index and makes it opaque again. It also keeps the handle of an auto-advance interval.
- **Contact form** (`ContactForm`). Three inputs are validated on their trimmed values:
  - name: at least 2 UTF-16 code units;
  - e-mail: the pattern `^[^\s@]+@[^\s@]+\.[^\s@]+$`;
  - message: at least 10 UTF-16 code units.

  Each input carries a class list and the elements that follow it. A failed check puts exactly one error element right after the input; a passed check removes it. Submitting runs all three checks and hands the trimmed values to the sender only when all three pass. The sender's outcome prepends a banner, and a success also empties the fields.
- **Navbar scroll effect** (`NavbarScrollEffect`). The navbar carries the class `scrolled` exactly when the page is scrolled more than 50 pixels.

Modules:

- `Wrappers`: `Option`.
- `Text`: the whitespace class shared by `String.prototype.trim` and `\s`, trimming, and `.length` as UTF-16 code units.
- `EmailPattern`: the e-mail pattern in two forms, proved equivalent.
  - A declarative split of the string into local part, `@`, host, `.` and last part.
  - The deterministic automaton that decides the pattern one character at a time.
- `Siblings`: what showing and clearing an inline error does to the elements after an input.
- `Form`: the validators, the submit rule, and the `Field` and `ContactForm` classes.
- `Slider`: index arithmetic and the `ImageSlider` class.
- `Navbar`: the threshold rule and the `NavbarScrollEffect` class.
- `Scenarios`: client methods that drive the classes through concrete situations, using only their contracts. Examples: two quick clicks before a fade completes; starting the auto-advance twice; an error shown twice; a valid submission followed by success, or by failure; scrolling down and back.

The methods of the classes update their fields in place. Each method's `ensures` states the new state in terms of the functions that the lemmas reason about.

## Model

| member | source | states |
|---|---|---|
| `Slider.NextIndex` | js/script.js:33 | the next index lies in [0, n) and is i + 1, wrapping from the last image to 0 |
| `Slider.PrevIndex` | js/script.js:39 | the previous index lies in [0, n) and is i - 1, wrapping from 0 to the last image |
| `Slider.NextPrevRoundTrip` | js/script.js:32-41 | previous after next, and next after previous, return to the original index |
| `Slider.SingleImage` | js/script.js:32-41 | with one image both buttons leave the index at 0 |
| `Slider.Advance` | js/script.js:55-57 | the index after k auto-advance ticks stays in range |
| `Slider.AdvanceIsModular` | js/script.js:55-57 | k ticks from i reach (i + k) mod n |
| `Slider.FullCycle` | js/script.js:55-57 | n ticks return to the starting image and no fewer ticks do |
| `Slider.ImageSlider.constructor` | js/script.js:16-23 | the slider starts at index 0 with no stored interval handle and no swap pending |
| `Slider.ImageSlider.Init` | js/script.js:26-29 | init starts the auto-advance: the handle is stored and its interval registered |
| `Slider.ImageSlider.NextImage` | js/script.js:32-35 | index becomes NextIndex of the old one (so stays in range), the image turns transparent, one more swap is pending |
| `Slider.ImageSlider.PrevImage` | js/script.js:38-41 | index becomes PrevIndex of the old one (so stays in range), the image turns transparent, one more swap is pending |
| `Slider.ImageSlider.UpdateImage` | js/script.js:44-47 | first phase of the fade: opacity 0 and one more deferred swap |
| `Slider.ImageSlider.FireSwap` | js/script.js:47-50 | a deferred swap shows images[currentIndex] for the index current when it fires, with opacity 1 |
| `Slider.ImageSlider.StartAutoSlide` | js/script.js:54-58 | the new handle overwrites the stored one and its interval joins the active ones; the previous interval stays active |
| `Slider.ImageSlider.StopAutoSlide` | js/script.js:61-63 | only the interval of the stored handle is cleared; the handle is not reset |
| `Slider.ImageSlider.AutoSlideTick` | js/script.js:55-57 | a tick of an active interval is a nextImage |
| `Text.Trim` | js/script.js:105 | the trimmed value has no whitespace at either end |
| `Text.TrimIsSlice` | js/script.js:105 | the trimmed value is the piece of the input that starts after its leading whitespace |
| `Text.TrimDropsOnlySpace` | js/script.js:105 | what trim removes on either side is whitespace |
| `Text.TrimUnique` | js/script.js:105 | any split into whitespace, a piece with no whitespace at either end, and whitespace determines trim's result |
| `Text.TrimOfTrimmed` | js/script.js:105 | a value with no whitespace at either end is its own trim |
| `Text.TrimIdempotent` | js/script.js:105 | trimming twice is trimming once |
| `Text.TrimIgnoresPadding` | js/script.js:105 | whitespace added around a value does not change its trim |
| `Text.Utf16Length` | js/script.js:108 | .length lies between the number of characters and twice that |
| `Text.BmpLength` | js/script.js:108 | without characters beyond U+FFFF, .length is the number of characters |
| `EmailPattern.EmailRegexTestCorrect` | js/script.js:120-122 | the automaton accepts exactly the strings with a non-empty [^\s@] local part, one '@', and a [^\s@] domain with a '.' that has a character on each side |
| `EmailPattern.RunIsExpected` | js/script.js:120-122 | after any input the automaton is in the state that the input's shape predicts |
| `EmailPattern.TldMatches` | js/script.js:120-122 | an accepted string splits as the pattern requires |
| `EmailPattern.MatchesTld` | js/script.js:120-122 | a string that splits as the pattern requires is accepted |
| `EmailPattern.Accepted` | js/script.js:120-122 | "a@b.c", "a@b.c.d" and "a@.b.c" pass the pattern |
| `EmailPattern.Rejected` | js/script.js:120-122 | "a@b", "a.b@", "noatsign", "a@@b.c", "a@b." and "a b@c.d" fail the pattern |
| `Siblings.Cleared` | js/script.js:160-166 | clearError removes an error element directly after the input and nothing else; with no stacked errors none is left there |
| `Siblings.Shown` | js/script.js:145-157 | showError leaves exactly one error element, with the new text, directly after the input, in place of any that was there; other elements are untouched |
| `Siblings.ShownReplaces` | js/script.js:150-156 | showing a second error replaces the first rather than stacking |
| `Siblings.ClearedIdempotent` | js/script.js:160-166 | clearing twice is clearing once when errors are not stacked |
| `Siblings.ClearedAfterShown` | js/script.js:145-166 | clearing after showing leaves what clearing alone leaves |
| `Siblings.StackedClearsTwice` | js/script.js:160-166 | with two stacked error elements a second clearError removes the second one, so clearError alone is not idempotent |
| `Form.Submission` | js/script.js:169-189 | a payload exists iff all three rules pass; it carries the trimmed values, which trimming leaves unchanged and which pass the rules again |
| `Form.ValidatorsIgnorePadding` | js/script.js:104-142 | whitespace around a value never changes any of the three verdicts |
| `Form.LengthRules` | js/script.js:104-142 | on a value with no surrounding whitespace and no character beyond U+FFFF, the name rule is length >= 2 and the message rule is length >= 10 |
| `Form.NameTooShort` | js/script.js:104-115 | "" and "a" fail the name rule |
| `Form.NameLongEnough` | js/script.js:104-115 | "ab" and "Alice" pass the name rule |
| `Form.NameCountsCodeUnits` | js/script.js:108 | one emoji passes the name rule because .length counts it as two code units |
| `Form.MessageTooShort` | js/script.js:132-142 | nine characters fail the message rule |
| `Form.MessageLongEnough` | js/script.js:132-142 | ten characters pass the message rule |
| `Form.EmailExamples` | js/script.js:118-129 | the e-mail examples keep the pattern's verdict once trimmed |
| `Form.ContactForm.constructor` | js/script.js:81-88 | the form holds three distinct inputs, with no banner and nothing sent |
| `Form.ContactForm.ShowError` | js/script.js:145-157 | the input's following elements become Shown of the old ones, it gains input-error, its value is kept |
| `Form.ContactForm.ClearError` | js/script.js:160-166 | the input's following elements become Cleared of the old ones, it loses input-error, its value is kept |
| `Form.ContactForm.ValidateName` | js/script.js:104-115 | returns the name rule on the value; false shows the name error, true clears it |
| `Form.ContactForm.ValidateEmail` | js/script.js:118-129 | returns the e-mail rule on the value; false shows the e-mail error, true clears it |
| `Form.ContactForm.ValidateMessage` | js/script.js:132-142 | returns the message rule on the value; false shows the message error, true clears it |
| `Form.ContactForm.HandleSubmit` | js/script.js:169-181 | all three validators run, so every field's error display is refreshed. The payload is sent iff Submission has one. Values are unchanged. With no stacked errors before, each field shows an error iff its rule fails |
| `Form.ContactForm.SubmitForm` | js/script.js:184-192 | the payload of trimmed values is handed to the sender |
| `Form.ContactForm.ResolveSubmission` | js/script.js:192-199 | the oldest payload's outcome prepends the success or failure banner; success empties the three values, failure keeps them |
| `Form.ContactForm.ShowSuccessMessage` | js/script.js:214-218 | a success-message banner with the text is prepended |
| `Form.ContactForm.ShowErrorMessage` | js/script.js:226-230 | an error-message banner with the text is prepended |
| `Form.ContactForm.ResetForm` | js/script.js:238-242 | the three values become empty |
| `Navbar.AfterScroll` | js/script.js:256-262 | scrolled is present iff the offset exceeds 50; no other class changes |
| `Navbar.OnlyLatestScrollCounts` | js/script.js:256-262 | only the latest offset decides the class list |
| `Navbar.Boundary` | js/script.js:257 | at 49 and 50 the class is absent, at 50.5, 51 and 1000 present, and scrolling back to 0 removes it |
| `Navbar.NavbarScrollEffect.HandleScroll` | js/script.js:256-262 | the navbar's class list becomes AfterScroll of the old one at the current offset |

`Slider.ConfigImages`, `Slider.ConfigAutoSlideInterval` and `Slider.ConfigTransitionDuration` are the values of `sliderConfig` (js/script.js:4-12).

## Left out

- Timers are not modelled. `setInterval` and `setTimeout` become explicit steps: `FireSwap` is a fade timeout firing and `AutoSlideTick` is an interval firing. Handles are parameters supplied by the caller. Delays, including the half-duration fade delay and the 5000 ms period, are not represented.
- Duplicate intervals are modelled, not excluded: a second `startAutoSlide` leaves the first interval running, and `stopAutoSlide` clears only the stored handle without resetting it.
- `sendFormData` is out. It is a stub that logs and always resolves after 1500 ms; the outcome becomes the `success` parameter of `ResolveSubmission`.
- Console output is not modelled.
- The automatic removal of the success and failure banners after 3000 ms is not modelled; banners stay until the model's state is discarded.
- `smoothScroll` is out: it only looks up the link target and scrolls to it. It does not guard against a link whose target is missing, and there `scrollIntoView` would be called on null.
- Event-listener wiring is out (the slider's buttons and hover pause, the form's submit and input events, the window's scroll event), and so is `initializePage`. Each handler is a method the caller invokes; `Init` covers only the auto-advance start.
- Element lookups by id or selector are out. The three inputs are `Field` objects given to the constructor and must be distinct.
- `e.preventDefault()` is not modelled.
- The `nameError` lookup in `validateName` is unused in the page code and has no effect; it is not modelled.
- Numbers are not modelled as JavaScript numbers; the slider's index arithmetic uses unbounded integers, which agree with the page for any realistic index.
- `window.scrollY` is a `real`, so fractional offsets are covered, but NaN and infinities are not.
- The e-mail pattern has no `u` flag, so the page's `[^\s@]` matches UTF-16 code units. For characters beyond U+FFFF this model reads whole characters. The verdict is the same, because a surrogate is neither whitespace nor '@'. The name and message lengths do count code units (`Utf16Length`).
- `Slider.ImageSlider.constructor` requires a non-empty image list. The page's list has three images; with none, `%` by zero would make the index NaN.
- `Slider.ImageSlider.constructor` takes the initial `src` and opacity as parameters, standing for the image element's state before the first fade.
