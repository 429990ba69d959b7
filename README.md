# Portfolio page state machines

This project models the stateful logic of a single-page portfolio site, `src/App.jsx`. The page is mostly markup. Five small state machines sit inside it:

- **TypewriterLoop**: the hero subtitle. It types a text, holds it, deletes it, and moves on to the next text, cycling for ever.
- **useEnterOnce**: a visibility latch. An intersection observer sets `entered` the first time the element is seen, then disconnects.
- **TypewriterOnView**: the summary paragraph. Once the latch is set, an interval reveals one more character per tick, then clears itself.
- **Contact form**: `handleChange`, `handleSubmit` with its popup, the auto-hide and Close buttons, and the `sent` flag.
- **useDarkMode**: the theme preference, read from local storage at start-up and written back on every change.

Timers, the DOM, the intersection observer, local storage, `matchMedia` and the email relay are not modelled. They become abstract events and inputs:

- a timer or interval firing is one call of a `Tick` method (or one `Next`/`Fire` step);
- an observer callback is `Notify`/`Intersect` with its `isIntersecting` flag;
- a run of the latch's effect is `RunEffect`/`Observe`, given whether the element is mounted;
- the relay's answer is the `ok` argument of `FinishSubmit`;
- the stored theme string and the system colour preference are constructor arguments.

Each component has the same shape:

- a state datatype and a pure step function, with lemmas about runs of the step function;
- a class with the component's fields;
- the class's methods update the fields the way the source's setters do, and are proved against the step function.

Modules: `JsString` (js_string.dfy, the clamped prefix both typewriters show), `TypewriterLoop` (typewriter_loop.dfy), `EnterOnce` (enter_once.dfy), `TypewriterOnView` (typewriter_on_view.dfy, which uses `EnterOnce`), `ContactForm` (contact_form.dfy), `DarkMode` (dark_mode.dfy).

With `["A", "BB"]` the display passes through `"B"` while `"BB"` is deleted. The held text and the empty string before the next text each take one step, even with a zero delay. `TypewriterLoop.ScenarioAB` states these frames.

## Model

| member | source | states |
|---|---|---|
| `TypewriterLoop.Next` | src/App.jsx:25-44 | one step of the type/hold/delete/advance effect keeps the state in bounds: `index < |texts|` and `subIndex <= |texts[index]|`; an out-of-range index (line 26) leaves the state unchanged with the `Stalled` label |
| `TypewriterLoop.NextRules` | src/App.jsx:28-41 | below full length and typing, `subIndex` goes up by one; at full length, only `deleting` becomes true; deleting above zero, `subIndex` goes down by one; at zero while deleting, `deleting` is cleared and `index` becomes `(index + 1) % |texts|` with `subIndex` still 0; the four steps wait for `typingSpeed`, `delay`, `deletingSpeed` and no timer respectively |
| `TypewriterLoop.Displayed` | src/App.jsx:46-48 | the shown string is a prefix of `texts[index]` whose length is `subIndex`, clamped to the text's length as `substring` does |
| `TypewriterLoop.RunInBounds` | src/App.jsx:25-44 | every state reached from an in-bounds state by any number of steps is in bounds |
| `TypewriterLoop.DisplayedIsPrefix` | src/App.jsx:21-48 | for a non-empty list, after any number of steps from mount the shown string is exactly `texts[index][..subIndex]` |
| `TypewriterLoop.TypeToEnd` | src/App.jsx:39-41 | while typing, k steps type exactly the k remaining characters |
| `TypewriterLoop.DeleteToStart` | src/App.jsx:39-41 | while deleting, `subIndex` steps delete every character |
| `TypewriterLoop.FullCycle` | src/App.jsx:28-41 | from `(i, 0, false)`, exactly `2 * |texts[i]| + 2` steps reach `((i + 1) % |texts|, 0, false)`; an empty text takes two steps |
| `TypewriterLoop.Rounds` | src/App.jsx:28-41 | after the first i texts have each run a full cycle the machine is at `(i % |texts|, 0, false)`; after all of them it is back at the mount state, so the animation repeats for ever |
| `TypewriterLoop.ScenarioAB` | src/App.jsx:19-48 | for texts `["A", "BB"]` the first twelve frames are `"", "A", "A", "", "", "B", "BB", "BB", "B", "", "", "A"` |
| `TypewriterLoop.Typewriter.constructor` | src/App.jsx:20-23 | mount state `(0, 0, false)` with nothing shown; requires a non-empty list because line 47 reads `texts[index]` unguarded |
| `TypewriterLoop.Typewriter.Tick` | src/App.jsx:25-48 | the setters change the fields exactly as `Next` does and return the wait label (typing speed, deleting speed, delay or none); the shown string stays the current prefix |
| `EnterOnce.Step` | src/App.jsx:65-76 | keeps "entered implies no observer armed"; `entered` never goes back to false; a non-intersecting callback changes nothing; an unset latch becomes set exactly on an intersecting callback from an armed observer |
| `EnterOnce.RunMonotone` | src/App.jsx:63-76 | once `entered` is true it stays true along any sequence of effect runs and callbacks |
| `EnterOnce.RunConsistent` | src/App.jsx:65-76 | no observer is armed while entered, along any sequence of events |
| `EnterOnce.EnteredIsFinal` | src/App.jsx:65-71 | once entered, no event changes anything: no observer is armed again (line 66) |
| `EnterOnce.AtMostOneRise` | src/App.jsx:63-76 | however often the callback fires, `entered` goes from false to true at most once, and never if it is already set |
| `EnterOnce.NoIntersectionNoEntry` | src/App.jsx:67-70 | events without an intersecting callback leave the latch unset |
| `EnterOnce.Latch.constructor` | src/App.jsx:62-63 | starts unset with no observer |
| `EnterOnce.Latch.RunEffect` | src/App.jsx:64-76 | the previous observer is disconnected, and a new one is armed only if the element is mounted and the latch is unset |
| `EnterOnce.Latch.Notify` | src/App.jsx:66-71 | an intersecting callback to an armed observer sets `entered` and disconnects; anything else changes nothing |
| `JsString.Slice` | src/App.jsx:93 | `text.slice(0, n)` (and `substring(0, n)` on line 47) is a prefix of the text of length `min(n, |text|)` |
| `TypewriterOnView.StopTick` | src/App.jsx:94 | the interval clears itself at tick `max(1, |text|)` |
| `TypewriterOnView.Fire` | src/App.jsx:91-94 | a cleared interval changes nothing; a running one advances the counter by one and sets `out` to the slice up to it, never shorter than before; it keeps running only while the counter is below the text's length |
| `TypewriterOnView.Revealed` | src/App.jsx:86-94 | the closed form of the state k ticks after entry: counter k, output `text.slice(0, k)`, running exactly while k is below the stopping tick |
| `TypewriterOnView.FireRevealed` | src/App.jsx:91-94 | one interval firing moves the closed form from k to k + 1 until the stopping tick, and changes nothing after it |
| `TypewriterOnView.AfterTicks` | src/App.jsx:86-95 | after k ticks from entry the state is the closed form for `min(k, max(1, |text|))` |
| `TypewriterOnView.RevealOutcome` | src/App.jsx:86-94 | after k ticks `out == text[..min(k, |text|)]`; the interval runs exactly while `k < max(1, |text|)`; from then on `out == text` |
| `TypewriterOnView.OutGrows` | src/App.jsx:91-93 | the length of `out` never decreases from one tick to the next |
| `TypewriterOnView.SilentBeforeEntry` | src/App.jsx:85 | before entry no interval runs, so ticks leave `out == ""` |
| `TypewriterOnView.Typewriter.constructor` | src/App.jsx:81-83 | a fresh, unset latch, nothing shown, no interval |
| `TypewriterOnView.Typewriter.Observe` | src/App.jsx:64-76 | a rerun of the latch's effect updates only the latch, as `EnterOnce.Step` says |
| `TypewriterOnView.Typewriter.Intersect` | src/App.jsx:84-89 | a callback updates the latch; when it sets the latch, the reveal restarts from counter 0 with `out == ""` and the interval running; otherwise nothing else changes; `out` never gets shorter |
| `TypewriterOnView.Typewriter.Tick` | src/App.jsx:90-94 | one interval firing changes the state exactly as `Fire` does, keeps the closed-form invariant, and never shortens `out` |
| `ContactForm.Change` | src/App.jsx:536-537 | the named field takes the new value and the other two fields are unchanged |
| `ContactForm.ToPayload` | src/App.jsx:548-552 | the `{from_name, from_email, message}` payload carries the three fields unchanged: reading it back gives the form |
| `ContactForm.OutcomeMessage` | src/App.jsx:557-562 | the popup text is one of the two outcome messages, and the success text exactly when the send succeeded |
| `ContactForm.ToneOf` | src/App.jsx:861 | the popup is emerald exactly when its message contains the check mark U+2705, as `includes("✅")` tests |
| `ContactForm.ToneMatchesOutcome` | src/App.jsx:556-563 | the popup is emerald (the message contains the check mark, line 861) exactly after a successful send, red after a failed one |
| `ContactForm.Form.constructor` | src/App.jsx:522-534 | empty fields, not loading, no popup, empty message, `sent` false |
| `ContactForm.Form.HandleChange` | src/App.jsx:536-537 | only the named field of `formData` changes; no other state changes |
| `ContactForm.Form.BeginSubmit` | src/App.jsx:539-552 | loading is shown, the popup is hidden, and the payload built from the current fields is returned; fields and message are unchanged |
| `ContactForm.Form.FinishSubmit` | src/App.jsx:556-566 | on success the three fields become empty, the popup is visible and shows the success text; on failure the fields are unchanged and the popup shows the failure text; either way loading ends |
| `ContactForm.Form.HidePopup` | src/App.jsx:566-567 | the auto-hide timer (and the Close button, line 866) hides the popup and changes nothing else |
| `ContactForm.Form.CloseSentDialog` | src/App.jsx:897 | the `sent` dialog's Close only assigns false; the invariant of every method keeps `sent` false, so that dialog is never shown |
| `DarkMode.Encode` | src/App.jsx:116-121 | the written value is a non-empty string that is `"dark"` exactly for the dark theme (otherwise `"light"`) |
| `DarkMode.InitialDark` | src/App.jsx:109-113 | a stored `"dark"` gives the dark theme; the dark theme comes only from a stored `"dark"` or, with no or an empty stored value, from the system preference |
| `DarkMode.RoundTrip` | src/App.jsx:109-121 | re-initialising from the written value gives back the same theme, whatever the system preference |
| `DarkMode.OtherValueIsLight` | src/App.jsx:110-111 | any other non-empty stored string gives the light theme |
| `DarkMode.NoPreferenceFollowsSystem` | src/App.jsx:110-112 | an absent or empty stored value gives the system preference |
| `DarkMode.Theme.constructor` | src/App.jsx:108-123 | the initial theme is decoded from the stored value and system preference, then the effect writes it back |
| `DarkMode.Theme.Persist` | src/App.jsx:114-123 | the effect sets the root class and the stored value to agree with the theme, and leaves the theme unchanged |
| `DarkMode.Theme.Toggle` | src/App.jsx:584 | the toggle flips the theme, the effect persists it, and a reload from the stored value gives the new theme |

## Left out

- framer-motion animation (variants, `whileInView`, and the `useScroll`/`useSpring`/`useTransform` progress of the education roadmap): library calls with spring physics and floating-point interpolation whose code is not available.
- Real timing. The durations of `setTimeout`/`setInterval` appear only as the `Wait` labels of `TypewriterLoop.Next`. Timer cancellation on unmount is not modelled.
- The 3-second auto-hide is an event (`HidePopup`) that the caller may send at any time. The model therefore does not capture that an old submission's timer can hide a newer popup.
- The `emailjs.send` network call is an oracle: its outcome is the argument of `FinishSubmit`. Environment-variable identifiers (service, template, public key) and console logging are not modelled.
- A second submit while a send is in flight is allowed by the source and by the model. The payload is the form as it was at submit time; the model returns it from `BeginSubmit` and does not track later edits against it.
- IntersectionObserver, `document.documentElement.classList`, `localStorage`, `matchMedia` and `scrollIntoView` are not modelled. They are inputs and outputs only: `hasTarget`, `isIntersecting`, `rootDark`, `stored` and `systemDark`. Where `matchMedia` is missing the source yields `undefined`, which the caller passes as `systemDark == false`.
- The observer's threshold (0.3) and the non-memoised options object are left out. That object makes the latch's effect re-run on every render. The model allows `RunEffect` at any time, which covers this.
- TypewriterLoop.Typewriter.Tick: has no branch for the `index >= texts.length` guard of line 26, because its invariant rules it out. The guard is modelled in `TypewriterLoop.Next` as a `Stalled` step.
- Changing the `texts` or `text` props mid-animation and React's render scheduling are not modelled. The display effect of line 47 is applied in the same step as the state change, not one render later.
- Strings are sequences of Unicode scalar values, while `.length`, `.substring` and `.slice` count UTF-16 code units. For characters outside the Basic Multilingual Plane the model's `FullCycle` lengths, `StopTick` and intermediate frames therefore differ from the source (which would show a lone surrogate half-way through such a character). Every text the page passes is ASCII.
- `handleChange` uses the input's `name` attribute as a dynamic key. It is modelled by the three field names of the form's inputs: an unknown name, which would add a new key, cannot occur.
- The `sent` dialog's icon and button colour, which depend on `popupMessage.includes("Failed")`, are not modelled: that dialog is never shown.
- Presentation and static content (markup, CSS classes, project, roadmap, skills and certifications data): nothing to verify. The same holds for the `Projects` selection and the `FlipCard` flip toggles, which only set, clear or negate one flag.
