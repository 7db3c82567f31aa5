# Bookin: the lead-qualification wizard and its helpers, in Dafny

Bookin is a small marketing site for an automation consultancy. Its one real
state machine is the six-step qualification wizard (`QualificationForm`). The
first five steps each ask for one selection: business type, revenue, project
type, timeline and budget. The last step asks for contact details. The wizard
keeps five pieces of state:

- the current step
- a slide direction
- an eleven-field answer record
- a per-field error map
- an error banner flag

`handleNext` validates the current step before it moves on. On the last step
it hands the answers to `onComplete`. Beside the wizard sit a booking form, the
web-vitals reporters, the animation constants and style builders, and the
React hooks for animation, theme colours and media queries.

The project models each of these source files as one Dafny module:

| module | file | what it holds |
|---|---|---|
| QualificationForm | `qualification_form.dfy` | The answer record and the step list. `ValidateStep`, the e-mail pattern as a matcher, progress and the slide offsets. The class `Wizard` with the four handlers. |
| BookingForm | `booking_form.dfy` | `validate` and the phone pattern. The trimmed record and the webhook payload. The class `BookingForm`, whose submit handler is split at its `await`. |
| WebVitals | `web_vitals.dfy` | The thresholds and `getRating`. The LCP report. The classes `ClsObserver` (running layout-shift sum) and `FcpObserver`. |
| Animations | `animations.dfy` | The duration and easing tables, reduced motion, and the stagger delay string. |
| AnimationStyles | `animation_styles.dfy` | `combineStyles`, `createStaggerStyle`, `createTransition`, the transform states, `getAnimationStyle`, `responsiveAnimation` and `createKeyframeAnimation`. |
| UseAnimations | `use_animations.dfy` | Classes for the entrance, stagger, ripple and loading hooks. Their timers are fields, and each timer's callback is a method. |
| UseColors | `use_colors.dfy` | The class-string builders. The initial theme mode. The classes `ThemeToggle` and `ThemeModeState`. |
| UseMediaQuery | `use_media_query.dfy` | The breakpoint classifier. The classes `BreakpointTracker` (a debounce slot) and `MediaQuery`. |

Three modules support the others:

| module | file | what it holds |
|---|---|---|
| Text | `text.dfy` | JavaScript white space, `.trim()` with a reference definition, decimal rendering and parsing of integers, and `join`. |
| Browser | `browser.dfy` | The presence of `window` and its media-query answers. The root element's classes. `localStorage`. |
| Wrappers | `wrappers.dfy` | `Option`. |

The presentation code is not modelled: markup, motion props and Tailwind
lists. The browser is made explicit:

- A callback of a browser API is a method the caller invokes.
- A value read from the browser is a parameter.
- State the browser keeps is a field of a small class.

The JavaScript `\s` class and `.trim()` both use one predicate,
`Text.IsWhitespace`. It holds the characters of the ECMAScript WhiteSpace and
LineTerminator productions.

## Model

| member | source | states |
|---|---|---|
| Text.Trim | src/components/QualificationForm.tsx:204-208 | `String.prototype.trim`, removing leading then trailing ECMAScript white space and line terminators; the lemmas below tie it to an independent definition |
| Text.TrimMeetsReference | src/components/QualificationForm.tsx:204-208 | `.trim()` returns the infix that drops all leading and trailing white space and keeps the rest |
| Text.TrimUnique | src/components/QualificationForm.tsx:204-208 | only one string meets the definition of a trim, so the model's `Trim` is that string |
| Text.TrimEmptyIff | src/components/QualificationForm.tsx:204 | a string trims to empty exactly when it is all white space |
| Text.TrimIdempotent | src/components/BookingForm.tsx:56-61 | trimming an already trimmed value changes nothing |
| Text.TrimIsInfix | src/components/BookingForm.tsx:56-61 | the trimmed value is a contiguous piece of the input |
| Text.IntToStringRoundTrip | src/lib/animations.ts:97 | the decimal rendering of an integer, as a template literal writes it, parses back to that integer |
| Text.JoinAppend | src/lib/animationStyles.ts:141 | joining a list with one more item appends the separator and that item |
| Browser.WithClass | src/hooks/useColors.ts:103-107 | after `classList.add` / `remove` the class is there exactly when asked for, and no other class changes |
| Browser.LocalStorage.GetItem | src/hooks/useColors.ts:92 | `getItem` gives the stored string for a stored key and `null` otherwise |
| QualificationForm.QualificationData.With | src/components/QualificationForm.tsx:239 | `{ ...prev, [field]: value }` sets the one field and keeps the other ten |
| QualificationForm.IsEmail | src/components/QualificationForm.tsx:207 | the test of `/^[^\s@]+@[^\s@]+\.[^\s@]+$/`, read as a local part, `@`, and a domain with a dot inside; EmailMatchesPattern states it against the pattern both ways |
| QualificationForm.EmailMatchesPattern | src/components/QualificationForm.tsx:207 | the matcher accepts exactly the strings that `^[^\s@]+@[^\s@]+\.[^\s@]+$` matches, stated as the regular expression reads (both directions) |
| QualificationForm.BlankIsNoEmail | src/components/QualificationForm.tsx:206-207 | an all-white-space e-mail can never also match the pattern |
| QualificationForm.ValidateStep | src/components/QualificationForm.tsx:187-210 | a step's errors are only ever about that step's own fields |
| QualificationForm.SelectionStepValidation | src/components/QualificationForm.tsx:187-202 | each of the five selection steps reports one error, "Please select an option", exactly when its field is empty |
| QualificationForm.ContactErrors | src/components/QualificationForm.tsx:203-209 | the messages of the `contact` case from the four contact answers; the keys are only those four fields, and ContactValidation states each message both ways |
| QualificationForm.ContactValidation | src/components/QualificationForm.tsx:203-209 | field by field, both ways: names and phone error when blank after trim. E-mail gives "Email is required" when blank, else "Invalid email" unless the untrimmed value matches the pattern. Company and details never error |
| QualificationForm.ValidateStepEmptyIff | src/components/QualificationForm.tsx:183-214 | a step validates exactly when its requirements, stated independently, hold |
| QualificationForm.ValidationIsLocal | src/components/QualificationForm.tsx:187-210 | answers that agree on a step's fields validate alike on that step |
| QualificationForm.Progress | src/components/QualificationForm.tsx:181 | `((currentStep + 1) / STEPS.length) * 100`, in exact arithmetic; ProgressProperties states its range and growth |
| QualificationForm.ProgressProperties | src/components/QualificationForm.tsx:181 | progress lies in (0, 100], is 100 only on the last step, and strictly grows with the step |
| QualificationForm.SlideEnter | src/components/QualificationForm.tsx:131-134 | the `enter` variant: x = 300 for a positive direction, else -300, transparent |
| QualificationForm.SlideExit | src/components/QualificationForm.tsx:139-142 | the `exit` variant: x = 300 for a negative direction, else -300, transparent |
| QualificationForm.SlideMirrors | src/components/QualificationForm.tsx:130-143 | with direction ±1 the entering step starts at x = ±300 and the leaving one ends at ∓300, so going back mirrors going forward. A step keeps moving the same way through the opaque `center` (x = 0): it covers equal, non-zero distances before and after it. Entering and leaving steps are transparent |
| QualificationForm.Wizard.constructor | src/components/QualificationForm.tsx:163-179 | the wizard starts as follows: step 0, direction 0, all eleven answers empty, no errors, no banner |
| QualificationForm.Wizard.ValidateCurrentStep | src/components/QualificationForm.tsx:183-214 | the error map is replaced wholesale by the current step's errors, and the result is true exactly when that map is empty |
| QualificationForm.Wizard.ContactStepErrors | src/components/QualificationForm.tsx:203-209 | the contact case of the switch computes exactly the contact-step errors of the current answers |
| QualificationForm.Wizard.HandleNext | src/components/QualificationForm.tsx:216-229 | three outcomes. Failure sets the banner and holds step and direction. Success before the last step clears the banner, sets direction 1 and moves exactly one step. Success on the last step hands the answers to `onComplete` and holds the step |
| QualificationForm.Wizard.HandleBack | src/components/QualificationForm.tsx:231-236 | no validation. A no-op on step 0; otherwise one step back with direction -1 |
| QualificationForm.Wizard.HandleSelect | src/components/QualificationForm.tsx:238-242 | sets one answer, clears only that field's error, and hides the banner |
| QualificationForm.Wizard.HandleInputChange | src/components/QualificationForm.tsx:244-247 | sets one answer and clears only that field's error; the banner is untouched |
| QualificationForm.EditIsLocal | src/components/QualificationForm.tsx:238-247 | an edit leaves every other answer and every other field's error as it was |
| QualificationForm.AnswerAndAdvance | src/components/QualificationForm.tsx:216-229 | answering the current selection step with a non-empty value and pressing next lands on the following step |
| QualificationForm.AnswerSelections | src/components/QualificationForm.tsx:216-229 | five answered selection steps bring a fresh wizard to the contact step; the answers are exactly the five selections, every other field still empty |
| QualificationForm.EnterContact | src/components/QualificationForm.tsx:244-247 | typing the four contact values gives the old answers with exactly those four fields replaced, and removes exactly those four fields' errors |
| QualificationForm.CompleteSession | src/components/QualificationForm.tsx:216-229 | five selections then the contact details take a fresh wizard to `onComplete`, which receives exactly the example lead's eleven answers |
| QualificationForm.RevenueLeftEmpty | src/components/QualificationForm.tsx:216-220 | next on an unanswered revenue step keeps the wizard on step 1 with exactly the revenue error |
| BookingForm.Validate | src/components/BookingForm.tsx:27-47 | `validate`'s error map, built check by check. Its only ensures, that the keys are form fields, holds of every error map; the message each field gets is stated by ValidateFieldByField and the empty case by ValidateEmptyIff |
| BookingForm.ValidateFieldByField | src/components/BookingForm.tsx:30-43 | field by field, both ways. Names and reason are required after trim. The phone reports "Phone number is required" when blank, else "Please enter a valid phone number" unless every character is a digit, white space, `-`, `+`, `(` or `)` |
| BookingForm.ValidateEmptyIff | src/components/BookingForm.tsx:27-47 | `validate` returns true exactly for a form meeting the independent acceptance predicate |
| BookingForm.TrimKeepsPhone | src/components/BookingForm.tsx:36-40 | trimming a phone number the pattern accepts leaves one it still accepts |
| BookingForm.Trimmed | src/components/BookingForm.tsx:56-61 | the `formData` object: each of the four inputs trimmed; AcceptedFormGivesCleanRecord and TrimmedFormValidatesAlike state what it guarantees |
| BookingForm.AcceptedFormGivesCleanRecord | src/components/BookingForm.tsx:56-61 | a form that validates trims to a record with every field non-blank and trimmed, and with a phone the pattern accepts |
| BookingForm.TrimmedFormValidatesAlike | src/components/BookingForm.tsx:56-61 | the trimmed record of an accepted form is accepted too |
| BookingForm.PayloadOf | src/components/BookingForm.tsx:70-76 | the request body: the four trimmed values under `first_name`, `last_name`, `phone_number` and `notes`, and `source` "website"; PayloadRoundTrip reads it back |
| BookingForm.PayloadRoundTrip | src/components/BookingForm.tsx:70-76 | the JSON body carries the whole trimmed record, readable back from `first_name`, `last_name`, `phone_number` and `notes`; `source` is "website" |
| BookingForm.PayloadInjective | src/components/BookingForm.tsx:70-76 | different records give different payloads |
| BookingForm.LogFor | src/components/BookingForm.tsx:79-85 | the console entries of one request: none when ok, the status and status text when not ok, the error entry when the request rejects |
| BookingForm.LogForOutcome | src/components/BookingForm.tsx:78-85 | only a response with `ok` set goes unlogged; a non-ok response or a rejection leaves exactly one console entry |
| BookingForm.BookingForm.constructor | src/components/BookingForm.tsx:20-25 | empty inputs, no errors, not submitting, nothing sent |
| BookingForm.BookingForm.Edit | src/components/BookingForm.tsx:111 | an input's change stores that one value; errors stay until the next submit |
| BookingForm.BookingForm.ValidateForm | src/components/BookingForm.tsx:27-47 | the error map is replaced wholesale, and the result is true exactly when it is empty |
| BookingForm.BookingForm.BeginSubmit | src/components/BookingForm.tsx:49-77 | an invalid form issues no request. A valid one raises `isSubmitting` and sends exactly one request whose payload is built from the trimmed inputs. While a submission is in flight, nothing changes |
| BookingForm.BookingForm.FinishSubmit | src/components/BookingForm.tsx:78-89 | whatever the outcome, the in-flight trimmed record goes to `onSubmit`, failures are logged, and `isSubmitting` drops; the invariant keeps every handed-over record clean and matched to its request |
| BookingForm.SubmitWithFailedWebhook | src/components/BookingForm.tsx:79-87 | a server error on the webhook still hands the trimmed record to `onSubmit`, with one log entry |
| BookingForm.BlankReasonBlocksSubmit | src/components/BookingForm.tsx:52 | a blank reason stops the submit before any request, with only the reason's message |
| WebVitals.GetRating | src/lib/webVitals.ts:24-31 | `getRating`: good for a name without thresholds, else good up to `good`, needs-improvement up to `poor`, poor above; RatingBands states the bands both ways |
| WebVitals.RatingBands | src/lib/webVitals.ts:24-31 | a name without thresholds is rated good; otherwise good up to `good`, needs-improvement up to `poor`, poor above (both ways) |
| WebVitals.ThresholdsOrdered | src/lib/webVitals.ts:16-22 | exactly LCP, INP, CLS, FCP and TTFB have thresholds, and each has 0 < good < poor |
| WebVitals.RatingMonotone | src/lib/webVitals.ts:28-30 | for one metric a larger value never gets a better rating |
| WebVitals.LcpReport | src/lib/webVitals.ts:37-48 | a batch yields a report exactly when it is non-empty |
| WebVitals.LcpUsesLastEntry | src/lib/webVitals.ts:38-48 | only the batch's last entry matters: value and delta are its start time, and it is the only entry reported |
| WebVitals.Counted | src/lib/webVitals.ts:71-76 | the entries `measureCLS` pushes: those without recent input, in order |
| WebVitals.ShiftSum | src/lib/webVitals.ts:74 | the sum of the values of a list of entries |
| WebVitals.CountedAppend | src/lib/webVitals.ts:71-77 | the counted shifts of two batches in a row are those of each, in arrival order |
| WebVitals.ShiftSumAppend | src/lib/webVitals.ts:74 | the shift sum adds up across concatenation |
| WebVitals.CountedMembers | src/lib/webVitals.ts:73-76 | an entry is counted exactly when it arrived without recent input |
| WebVitals.ClsObserver.constructor | src/lib/webVitals.ts:60-61 | the sum starts at 0 and the list empty |
| WebVitals.ClsObserver.OnEntries | src/lib/webVitals.ts:70-87 | the loop appends exactly the batch's counted entries and adds exactly their values. The report carries the running total and every counted entry so far, kept equal to a function of all entries ever seen |
| WebVitals.ClsIsCumulative | src/lib/webVitals.ts:70-87 | reporting two batches one after the other gives what one batch with both gives |
| WebVitals.FcpReports | src/lib/webVitals.ts:100-111 | the callbacks of one FCP batch, one per `first-contentful-paint` entry, in order |
| WebVitals.FcpReportsAreFcp | src/lib/webVitals.ts:100-111 | each report is about one first-contentful-paint entry of the batch with value = delta = its start time; each such entry is reported; there is no report exactly when there is no such entry |
| WebVitals.FcpObserver.OnEntries | src/lib/webVitals.ts:99-113 | a connected observer reports every first-contentful-paint entry of the batch, then is disconnected exactly when it reported; a disconnected one reports nothing |
| Animations.GetAnimationDuration | src/lib/animations.ts:30-32 | the `ANIMATION_DURATIONS` lookup |
| Animations.DurationsIncreasing | src/lib/animations.ts:8-15 | every duration is positive, and a key declared later is strictly longer (both ways) |
| Animations.GetAnimationEasing | src/lib/animations.ts:37-39 | the `ANIMATION_EASINGS` lookup |
| Animations.EasingsDistinct | src/lib/animations.ts:17-22 | no two easing keys share a curve |
| Animations.PrefersReducedMotion | src/lib/animations.ts:44-47 | false without a window, else the media query's answer |
| Animations.GetSafeAnimationDuration | src/lib/animations.ts:52-54 | 0 under reduced motion, else the table duration; SafeDurationProperties states both cases |
| Animations.SafeDurationProperties | src/lib/animations.ts:44-54 | the safe duration is 0 exactly under reduced motion, and otherwise the table value. Without a window it is always the table value |
| Animations.MillisecondsRoundTrip | src/lib/animations.ts:97 | `${ms}ms` ends in the unit and reads back as `ms` |
| Animations.MillisecondsInjective | src/lib/animations.ts:97 | different numbers give different CSS times |
| Animations.GetStaggerDelay | src/lib/animations.ts:96-98 | `${index * baseDelay}ms`, 100 by default; StaggerDelayMeaning reads the number back |
| Animations.StaggerDelayMeaning | src/lib/animations.ts:96-98 | the delay string stands for index·baseDelay milliseconds, 100 per item by default, and item 0 has "0ms" |
| AnimationStyles.CombineStyles | src/lib/animationStyles.ts:118-120 | `Object.assign({}, ...styles.filter(Boolean))`: the defined styles merged left to right |
| AnimationStyles.CombineKeys | src/lib/animationStyles.ts:118-120 | the merged keys are the union of the defined arguments' keys |
| AnimationStyles.CombineLaterWins | src/lib/animationStyles.ts:118-120 | for a shared key the last argument that has it gives the value |
| AnimationStyles.CombineSkipsUndefined | src/lib/animationStyles.ts:119 | an `undefined` argument changes nothing |
| AnimationStyles.CreateStaggerStyle | src/lib/animationStyles.ts:125-129 | the style has the one key `animationDelay` |
| AnimationStyles.StaggerStyleMeaning | src/lib/animationStyles.ts:125-129 | that key holds index·baseDelay milliseconds, with baseDelay 100 by default |
| AnimationStyles.TransitionItems | src/lib/animationStyles.ts:141 | one `prop {duration}ms {easing}` entry per property, in input order |
| AnimationStyles.CreateTransition | src/lib/animationStyles.ts:134-143 | the style has the one key `transition` |
| AnimationStyles.TransitionSingleIsList | src/lib/animationStyles.ts:137-139 | a single name behaves as a one-element list, and the easing defaults to the smooth curve |
| AnimationStyles.TransitionAppend | src/lib/animationStyles.ts:139-141 | one more property appends ", " and its entry |
| AnimationStyles.TransformState | src/lib/animationStyles.ts:41-68 | the `transformStates` table, state by variant |
| AnimationStyles.TransformStateProperties | src/lib/animationStyles.ts:41-68 | opacity is 1 only in the animate state; fade has no transform; exit mirrors the opposite slide's entry, and scale exits as it entered |
| AnimationStyles.GetAnimationStyle | src/lib/animationStyles.ts:183-202 | the state's style, then the transition, then a delay when truthy, then `hardwareAccelerated`, each spread over the previous |
| AnimationStyles.AnimationStyleProperties | src/lib/animationStyles.ts:183-202 | spreading `hardwareAccelerated` last makes transform `translateZ(0)`. `transitionDelay` is present exactly for a truthy delay. The keys are the state's keys plus the transition and acceleration keys |
| AnimationStyles.TransformStateKeys | src/lib/animationStyles.ts:41-68 | every state style sets opacity and at most a transform besides |
| AnimationStyles.LayeredStyle | src/lib/animationStyles.ts:196-201 | over any state style (it has opacity and no `transitionDelay`), the later spreads win: transform and backface come from `hardwareAccelerated`, opacity from the base, and `transitionDelay` is there exactly when its spread adds it |
| AnimationStyles.AnimationStyleDefaults | src/lib/animationStyles.ts:193-199 | without options the transition is `all 500ms` on the smooth curve |
| AnimationStyles.AnimationStyleZeroDelay | src/lib/animationStyles.ts:199 | a delay of 0 is falsy, so the style is the one without options: no `transitionDelay` |
| AnimationStyles.AnimationStyleOptions | src/lib/animationStyles.ts:192-199 | a given duration, easing and non-zero delay are what the style uses |
| AnimationStyles.ResponsiveAnimation | src/lib/animationStyles.ts:207-215 | `{}` when disabled on mobile and the window is narrower than 768, else the styles |
| AnimationStyles.ResponsiveAnimationCases | src/lib/animationStyles.ts:207-215 | `{}` exactly when asked to disable on a window narrower than 768; the input untouched otherwise, by default and without a window |
| AnimationStyles.CreateKeyframeAnimation | src/lib/animationStyles.ts:220-237 | the keyframe style with its defaults of 500 ms and the smooth curve |
| AnimationStyles.KeyframeAnimationProperties | src/lib/animationStyles.ts:220-237 | always the same six keys. `animationDelay` is `undefined` exactly when the delay is absent or 0, and is otherwise that many milliseconds. transform is `translateZ(0)` |
| UseAnimations.EntranceDelay | src/hooks/useAnimations.ts:35 | `reduced ? 0 : delay` |
| UseAnimations.EntranceDelayCases | src/hooks/useAnimations.ts:35 | the entrance timer waits 0 under reduced motion and the given delay otherwise |
| UseAnimations.EntranceAnimation.constructor | src/hooks/useAnimations.ts:31 | hidden at first, with no timer |
| UseAnimations.EntranceAnimation.RunEffect | src/hooks/useAnimations.ts:34-38 | the effect schedules one timer with the safe delay |
| UseAnimations.EntranceAnimation.TimerFires | src/hooks/useAnimations.ts:36 | the timer shows the element |
| UseAnimations.EntranceAnimation.Cleanup | src/hooks/useAnimations.ts:37 | the cleanup clears the timer |
| UseAnimations.Indices | src/hooks/useAnimations.ts:52 | `Array.from({ length: n }, (_, i) => i)` holds exactly 0 .. n-1 |
| UseAnimations.StaggerAnimation.constructor | src/hooks/useAnimations.ts:46-47 | no item is visible at first |
| UseAnimations.StaggerAnimation.RunEffect | src/hooks/useAnimations.ts:50-66 | the effect takes the current `itemCount`, `baseDelay` and reduced-motion answer. Under reduced motion the visible set becomes exactly the items, with nothing pending. Otherwise the visible set is kept as it was, and the loop schedules exactly one timer per item, item i at i * baseDelay |
| UseAnimations.StaggerAnimation.TimerFires | src/hooks/useAnimations.ts:59-61 | item i's timer adds i to the visible set and nothing else, so a visible set within the items stays within them |
| UseAnimations.StaggerAnimation.Cleanup | src/hooks/useAnimations.ts:65 | every pending timer is cleared |
| UseAnimations.StaggerOrder | src/hooks/useAnimations.ts:58-61 | with a non-negative base delay an earlier item is never scheduled after a later one |
| UseAnimations.RippleAt | src/hooks/useAnimations.ts:96-106 | the new ripple: size the larger side, its corner half a size up and left of the click, relative to the element |
| UseAnimations.ShrinkKeepsShownItems | src/hooks/useAnimations.ts:47-66 | after items 3 and 4 of five have shown, a rerun with three items keeps both in the visible set |
| UseAnimations.RippleGeometry | src/hooks/useAnimations.ts:96-99 | the ripple is a square as large as the larger side, centred on the click |
| UseAnimations.RemoveId | src/hooks/useAnimations.ts:112 | `prev.filter((r) => r.id !== id)` |
| UseAnimations.RemoveAbsentId | src/hooks/useAnimations.ts:112 | filtering an id no ripple has leaves the list as it is |
| UseAnimations.RemoveIdSplices | src/hooks/useAnimations.ts:111-113 | with unique increasing ids, removing one ripple's id drops exactly that ripple and keeps the rest in order |
| UseAnimations.RemoveIdMembers | src/hooks/useAnimations.ts:112 | the filter keeps exactly the ripples with another id |
| UseAnimations.RemoveIdKeepsOrder | src/hooks/useAnimations.ts:105-112 | the filter keeps the ids strictly increasing |
| UseAnimations.RippleEffect.constructor | src/hooks/useAnimations.ts:87-88 | no ripples and the counter at 0 |
| UseAnimations.RippleEffect.CreateRipple | src/hooks/useAnimations.ts:91-114 | under reduced motion nothing changes. Otherwise one ripple with the current counter as id is appended, its removal is scheduled, and the counter grows by one. Ids stay unique, increasing and below the counter |
| UseAnimations.RippleEffect.RemovalFires | src/hooks/useAnimations.ts:111-113 | the timer filters out its ripple's id, and the ids stay increasing |
| UseAnimations.TwoClicksThenFirstRemoval | src/hooks/useAnimations.ts:105-113 | after two clicks and the first removal only the second ripple is left |
| UseAnimations.Remaining | src/hooks/useAnimations.ts:228 | `Math.max(0, minDuration - elapsed)` |
| UseAnimations.RemainingProperties | src/hooks/useAnimations.ts:227-228 | the remaining time is never negative, and elapsed plus remaining is at least the minimum duration |
| UseAnimations.LoadingAnimation.constructor | src/hooks/useAnimations.ts:218-220 | hidden at first with no start time; minimum 300 ms by default |
| UseAnimations.LoadingAnimation.RunEffect | src/hooks/useAnimations.ts:222-237 | the effect takes the current `isLoading` and `minDuration`. Loading shows the spinner at once and records the start time. When loading ends with a truthy start time, hiding is scheduled after max(0, minDuration - elapsed) with the minimum of this run; with no start time nothing is scheduled |
| UseAnimations.LoadingAnimation.HideTimerFires | src/hooks/useAnimations.ts:230-233 | the timer hides the spinner and forgets the start time |
| UseAnimations.LoadingCycle | src/hooks/useAnimations.ts:222-233 | a loading period shows the spinner and hides it no earlier than start + minDuration |
| UseColors.GetColorClasses | src/hooks/useColors.ts:159-168 | `getColorClasses`, with the state variants on by default |
| UseColors.ColorClassesShape | src/hooks/useColors.ts:159-168 | without states the string is exactly `bg-c text-c-foreground`. By default it is that base followed by the hover, active and disabled classes, so the base is a proper prefix |
| UseColors.BaseClassesShape | src/hooks/useColors.ts:163 | the colour name follows the leading `bg-` of the base classes |
| UseColors.GetTextClass | src/hooks/useColors.ts:173-177 | `text-text-${level}`, primary by default |
| UseColors.TextClassMeaning | src/hooks/useColors.ts:173-177 | the class is `text-text-` then the level, primary by default, and the level can be read back |
| UseColors.ParseMode | src/hooks/useColors.ts:92-95 | the stored value read as a mode when it is "dark" or "light" |
| UseColors.ParseModeRoundTrip | src/hooks/useColors.ts:92-95 | a stored mode string reads back as that mode, and only "dark" and "light" are read as modes |
| UseColors.InitialToggleMode | src/hooks/useColors.ts:88-99 | the `useState` initialiser of `useThemeToggle` |
| UseColors.InitialToggleModeCases | src/hooks/useColors.ts:88-99 | light without a window; otherwise a stored mode wins; otherwise the system preference |
| UseColors.Opposite | src/hooks/useColors.ts:111 | `mode === 'light' ? 'dark' : 'light'` |
| UseColors.OppositeInvolution | src/hooks/useColors.ts:111 | the other mode differs, and the other of the other is the original |
| UseColors.ThemeToggle.constructor | src/hooks/useColors.ts:87-99 | starts in the resolved initial mode, reading storage only when there is a window |
| UseColors.ThemeToggle.ApplyMode | src/hooks/useColors.ts:101-108 | the effect makes the root's `dark` class agree with the mode |
| UseColors.ThemeToggle.Toggle | src/hooks/useColors.ts:110-121 | switches to the other mode, shows `dark` exactly in dark mode with no other class touched, and stores the new mode under the storage key |
| UseColors.ToggleTwice | src/hooks/useColors.ts:110-121 | two toggles restore the mode and the root's classes |
| UseColors.ToggleSurvivesReload | src/hooks/useColors.ts:88-121 | after a toggle, a fresh mount over the same storage starts in the toggled mode |
| UseColors.ThemeModeState.constructor | src/hooks/useColors.ts:25-28 | light without a window, else the mode the root element shows |
| UseColors.ThemeModeState.UpdateMode | src/hooks/useColors.ts:30-37 | the mode becomes the new one, `dark` is present exactly in dark mode, and no other class changes |
| UseMediaQuery.ClassifyWidth | src/hooks/useMediaQuery.ts:55-63 | `updateBreakpoint`'s if-chain on the width |
| UseMediaQuery.BreakpointBands | src/hooks/useMediaQuery.ts:55-63 | below 640 is mobile, 640 to 1023 tablet, 1024 and up desktop (both ways) |
| UseMediaQuery.BreakpointMonotone | src/hooks/useMediaQuery.ts:56-62 | a wider window never gets a smaller breakpoint |
| UseMediaQuery.BreakpointTracker.constructor | src/hooks/useMediaQuery.ts:52 | desktop before the first update, nothing pending |
| UseMediaQuery.BreakpointTracker.Mount | src/hooks/useMediaQuery.ts:72-73 | the mount classifies the current width at once and starts listening |
| UseMediaQuery.BreakpointTracker.OnResize | src/hooks/useMediaQuery.ts:67-70 | a resize clears the pending update and schedules a fresh one 150 ms away, so exactly one is pending |
| UseMediaQuery.BreakpointTracker.TimerFires | src/hooks/useMediaQuery.ts:55-63 | the pending update classifies the width at that moment and leaves nothing pending |
| UseMediaQuery.BreakpointTracker.Teardown | src/hooks/useMediaQuery.ts:75-78 | the cleanup clears the pending update and stops listening |
| UseMediaQuery.ResizeBurst | src/hooks/useMediaQuery.ts:66-70 | after a burst of resizes only the last update fires, and the breakpoint follows that moment's width |
| UseMediaQuery.MediaQuery.constructor | src/hooks/useMediaQuery.ts:15-23 | false without a window, else the list's current answer |
| UseMediaQuery.MediaQuery.MountEffect | src/hooks/useMediaQuery.ts:30-42 | with a list the effect re-reads its answer and listens; without one it does nothing |
| UseMediaQuery.MediaQuery.OnChange | src/hooks/useMediaQuery.ts:26-28 | after a change event the value is that event's `matches` |
| UseMediaQuery.MediaQuery.Unmount | src/hooks/useMediaQuery.ts:39-41 | the cleanup stops listening |

## Left out

- Rendering (JSX, motion props, icons, class lists, `renderStepContent`) is presentation and is not modelled.
- The page that receives `onComplete` is not part of this model. `HandleNext` returns the record it would be handed.
- `fetch`, `import.meta.env` and `console.error` are I/O. The request's outcome is a parameter, ok, not ok or rejected. The API key is a constructor parameter. The console is a log field. `JSON.stringify` is not modelled: the body is the payload record itself, and the `Content-Type` header is not modelled.
- BookingForm.BookingForm.BeginSubmit: the source disables the submit button while submitting, so a second submit cannot start. The model states this as a no-op rather than modelling the button.
- QualificationForm.Wizard.HandleSelect: the source sets the field's error to `undefined`, but the model removes the key. The two are indistinguishable to every reader of the error map in the component.
- QualificationForm.Wizard.HandleInputChange clears the field's error the same way, by removing the key.
- WebVitals.ClsObserver.OnEntries: the source reports the live `clsEntries` array, which later batches keep growing. The model reports a snapshot of the list, so that aliasing is not modelled.
- WebVitals.LcpReport: the source would throw on an empty batch when it reads `startTime` of `undefined`. The model gives no report, and the exception is not modelled.
- GetRating with a name inherited from `Object.prototype` is not modelled. The source only calls it with the literal names LCP, CLS and FCP.
- The `'PerformanceObserver' in window` guard, `observe` and the try/catch around observer creation are browser wiring and are left out. `initWebVitals`, `logWebVitals` and their `toFixed`/`Math.round` display formatting are also left out.
- JavaScript numbers are not IEEE doubles here:
  - durations, delays, widths and times are integers;
  - layout-shift values, ripple coordinates and the progress percentage are exact reals, so the rounding of `((currentStep + 1) / STEPS.length) * 100` is not modelled.
  - A non-integer duration, and its rendering in a template string, are not modelled.
- Animations.PrefersReducedMotion and the hooks' `usePrefersReducedMotion` are inputs, not subscriptions: the reduced-motion answer and the window's width are parameters.
- `setTimeout`, `clearTimeout` and `Date.now` are not modelled as a clock. A pending timer is a field, its firing is a method the caller invokes, and the current time is a parameter.
- React's scheduling of effects is not modelled. A caller invokes an effect method with the new dependencies, and that method starts by dropping the previous run's timers, as the previous cleanup would have.
- `usePageTransition`, `useToggleAnimation` and `useInViewAnimation` are left out; they are timer and observer choreography with little behaviour of their own.
- `useSystemTheme`, `useColorValue`, `getColorValue` and `useContrastCheck` are left out. `useContrastCheck` always reports true.
- The static tables are data only and not modelled: `ANIMATION_CLASSES`, the spring configurations, `transitionStyles`, the hover, active and loading states, and `animationPresets`.
- matchMedia listeners are single booleans (`listening`); adding the same listener twice is not modelled.
