# Portfolio contact form and page state, modelled in Dafny

This project models the logic of the portfolio site's client script (`js/main.js`) that
does not depend on the browser. It covers five parts:

- the contact form's submit pipeline. This is the cooldown gate `validateFormSubmission`; the
  screening in `sendContactForm` (`isValidInput`, `sanitizeInput`) and its one call to the
  e-mail service; `setLoadingState`; and the submit handler that `initializeContactForm`
  installs around a captured `lastSubmissionTime`.
- live field validation (`validateInput` and `isValidEmail`).
- the light/dark theme switch, with the persisted `"theme"` entry.
- the project filter buttons.
- the string operations these rely on: `trim`, `includes`, and JavaScript's white space.

Files, one module each: `text.dfy` (Text), `wrappers.dfy` (Wrappers), `screening.dfy`
(Screening), `fields.dfy` (FieldValidation), `contact.dfy` (ContactForm), `theme.dfy` (Theme),
`filter.dfy` (ProjectFilter).

Several inputs are passed in as parameters:

- The clock: each submit event carries the time the gate reads and the time read after a
  successful send.
- The e-mail service's answer: the reply its promise settles with.
- The browser store: a `map<string, string>`.

The e-mail service is a class that records the requests it is handed. The page state that the
source changes in place is held in classes: the submit button, the form with its
`lastSubmissionTime` and appended banners, each field's form group, and the theme switch. The
filter's buttons and cards are arrays that are updated in place.

The code differs from a plain description of the form in several ways. The model follows the
code each time:

- No field is trimmed or checked for emptiness before sending. The only screening is
  `isValidInput`: fewer than 1000 characters, and none of `<`, `>`, `{`, `}`.
- `sanitizeInput` runs only on fields that passed that check. It therefore never changes them.
  This is proved (`Screening.SanitizeIdentityOnValidInput`).
- A successful send does not clear the form.
- The handler returns nothing. Its outcome is visible only through the banner, the button and
  `lastSubmissionTime`. `ContactForm.Effect` names the three outcomes.
- A failed send, whether rejected by the service or answered with a status other than 200,
  leaves `lastSubmissionTime` unchanged. The next attempt is therefore not held back by the
  cooldown.

## Model

| member | source | states |
|---|---|---|
| `Text.TrimEmptyIff` | js/main.js:217 | `value.trim() === ''` holds exactly when every character is JavaScript white space |
| `Text.Trim` | js/main.js:217 | the trimmed value is a contiguous slice of the input whose first and last characters are not white space, and every character dropped before or after it is white space |
| `Screening.HasSuspicious` | js/main.js:522-523 | the `[<>{}]` test is true exactly when one of the four characters occurs somewhere |
| `Screening.IsValidInput` | js/main.js:520-524 | accepts exactly the strings shorter than 1000 characters that contain none of `<`, `>`, `{`, `}` |
| `Screening.ValidInputLengthBoundary` | js/main.js:523 | any string of length 1000 is rejected; 999 harmless characters are accepted |
| `Screening.Sanitize` | js/main.js:458-460 | the `<[^>]*>` rewrite never lengthens its input |
| `Screening.SanitizeKeepsOnlyInputChars` | js/main.js:459 | every character of the output occurs in the input |
| `Screening.SanitizeOnlyDeletes` | js/main.js:459 | the output is a subsequence of the input: the rewrite only deletes characters and keeps the rest in order |
| `Screening.SanitizeKeepsPrefixWithoutOpen` | js/main.js:459 | a prefix without `<` is kept as it is, whatever follows it: `Sanitize(p + q) == p + Sanitize(q)` |
| `Screening.SanitizeKeepsSuffixWithoutClose` | js/main.js:459 | a suffix without `>` is kept as it is, whatever precedes it: `Sanitize(p + q) == Sanitize(p) + q`, so a trailing unmatched `<` survives |
| `Screening.SanitizeKeepsUnmatchedBesideRun` | js/main.js:459 | next to a deleted run, unmatched angles survive: `<a>x<y` becomes `x<y` and `x><a>` becomes `x>` |
| `Screening.SanitizeIsTagFree` | js/main.js:459 | in the output no `<` is followed anywhere later by a `>` |
| `Screening.SanitizeIdentityOnTagFree` | js/main.js:459 | a string with no `<` followed by a later `>` is returned unchanged, so a stray `>` and a `<` with no later `>` survive |
| `Screening.SanitizeIdentityWithoutOpenAngle` | js/main.js:459 | the rewrite is the identity on every string without `<` |
| `Screening.SanitizeIdempotent` | js/main.js:458-460 | sanitizing twice equals sanitizing once |
| `Screening.SanitizeIdentityOnValidInput` | js/main.js:488-497 | every field that passed `isValidInput` is left unchanged by `sanitizeInput` |
| `Screening.SanitizeDeletesTagRun` | js/main.js:459 | `a<b>c` becomes `ac` and `<script>` becomes empty |
| `Screening.SanitizeRunEndsAtFirstClose` | js/main.js:459 | a run ends at the first `>` and may contain another `<`: `<a<b>c>` becomes `c>` |
| `Screening.SanitizeKeepsUnmatchedAngles` | js/main.js:459 | `x>y<z` is left unchanged |
| `FieldValidation.SplitAtFirstAtIff` | js/main.js:229-231 | the split-at-first-`@` check (a non-empty local part, a domain without white space or `@` holding an inner `.`) accepts exactly the language of `^[^\s@]+@[^\s@]+\.[^\s@]+$`, both directions |
| `FieldValidation.IsValidEmail` | js/main.js:229-231 | `isValidEmail` returns true exactly on the strings in the language of `^[^\s@]+@[^\s@]+\.[^\s@]+$` |
| `FieldValidation.ValidEmailShape` | js/main.js:229-231 | an accepted address has no white space, exactly one `@`, and a non-empty part before it |
| `FieldValidation.CheckField` | js/main.js:214-227 | the state is "required" exactly when the trimmed value is empty; otherwise it is "invalid email" exactly for an `email`-type field that fails the pattern; otherwise it is valid |
| `FieldValidation.FormGroup.ValidateInput` | js/main.js:214-227 | the group has the `error` class exactly when the field state is not valid; `data-error` holds the matching message, and is deleted when the state is valid |
| `ContactForm.Gate` | js/main.js:465-477 | with the intended 60000 ms constant, the attempt is blocked exactly when `now - last < 60000` |
| `ContactForm.GateAsWritten` | js/main.js:467 | as written, the comparison never lets an attempt through (it throws a ReferenceError) |
| `ContactForm.ScopingBugBlocksFirstSubmission` | js/main.js:465-467 | on the first submission of a page (`lastSubmissionTime` = 0, clock at least 60000), the intended gate passes while the code as written throws |
| `ContactForm.CooldownBoundary` | js/main.js:467 | an attempt exactly 60000 ms after the last success passes; one at 59999 ms is blocked |
| `ContactForm.PrepareRequest` | js/main.js:483-510 | fails with "Invalid input detected…" exactly when some field fails `isValidInput`; otherwise the request is the fixed service and template, with `from_name` = name, `from_email` = `reply_to` = email, `message` = message, and the fixed `to_name` |
| `ContactForm.SendCompletion` | js/main.js:483-515 | `sendContactForm` throws the invalid-input error when a field fails screening; otherwise it returns exactly when the service resolves with status 200, throws "Failed to send message" on any other status, and rethrows the service's rejection message |
| `ContactForm.HandlerEffect` | js/main.js:158-176 | an event is rejected by the cooldown exactly when `now - last < 60000`; it is sent exactly when the gate passes, all three fields are valid and the service resolves with status 200; each failure carries the message of the error that was thrown |
| `ContactForm.HandlerFacts` | js/main.js:161-174 | a cooldown rejection makes no service call and keeps `lastSubmissionTime`; there is at most one call, with the fields as typed; `lastSubmissionTime` changes only on success, and on success it becomes the clock read after completion |
| `ContactForm.SecondAttemptWithinCooldownRejected` | js/main.js:465-477 | an attempt less than 60000 ms after a successful send's completion is rejected and calls nothing |
| `ContactForm.WellFormedSubmissionDelivered` | js/main.js:483-514 | name `Jane Doe`, email `jane@example.com`, message `Hello!` with status 200 is sent unchanged and sets `lastSubmissionTime` |
| `ContactForm.ScriptMessageRefused` | js/main.js:488-490 | a message `<script>` fails with the invalid-input error before any service call |
| `ContactForm.LastAfterCoversSuccesses` | js/main.js:166-170 | on a clock that never goes back, `lastSubmissionTime` is never below the completion time of an earlier successful send |
| `ContactForm.AcceptedAttemptsSpacedByCooldown` | js/main.js:154-176 | on such a clock, every attempt the gate lets through is at least 60000 ms after the completion of every earlier successful send |
| `ContactForm.SubmitButton.SetLoadingState` | js/main.js:419-427 | loading: disabled with text `Sending...`; not loading: enabled with text `Send` |
| `ContactForm.DeliveryService.Send` | js/main.js:500-510 | the request is appended to the service's log, and the call settles with the service's answer |
| `ContactForm.ContactForm.constructor` | js/main.js:154-156 | a new form starts with `lastSubmissionTime` = 0 and no banners |
| `ContactForm.ContactForm.ValidateFormSubmission` | js/main.js:465-478 | returns true exactly when the gate passes; a rejection appends the "please wait" error banner, and nothing else changes |
| `ContactForm.ContactForm.SendContactForm` | js/main.js:483-515 | the service is called once with the prepared request when all fields are valid, and not at all otherwise; throws the invalid-input error, throws "Failed to send message" on a status other than 200, or passes on the service's rejection |
| `ContactForm.ContactForm.HandleSubmit` | js/main.js:158-176 | the new `lastSubmissionTime`, the banner appended and the service calls made are those given by the handler functions; a cooldown rejection leaves the button untouched; every accepted attempt, success or failure, ends with the button enabled and reading `Send` |
| `ContactForm.ContactForm.HandleSubmitAsWritten` | js/main.js:158-161 | as written, the listener's promise rejects with a ReferenceError, and the button, service, banners and `lastSubmissionTime` are all unchanged |
| `Theme.SavedTheme` | js/main.js:70 | a missing or empty `"theme"` entry falls back to `light`; otherwise the stored value is used |
| `Theme.SheetFor` | js/main.js:71 | the address is `./css/theme-` followed by the theme name and `.css`, so different themes load different addresses |
| `Theme.ClickedTheme` | js/main.js:79-82 | a click switches to `dark` exactly when the current address contains `theme-light.css`, and to `light` otherwise; either way the new address is one of the two shipped stylesheets |
| `Theme.DarkModeClassAsWritten` | js/main.js:79-81 | as written, the class after a click is `!isLight` for the sheet before the click, so it is on exactly when the click switches to the light theme |
| `Theme.SheetsDistinguished` | js/main.js:79-80 | the handler's `includes('theme-light.css')` test is true on the light stylesheet and false on the dark one |
| `Theme.ClickFlips` | js/main.js:78-83 | a click switches light to dark and dark to light |
| `Theme.TwoClicksRestore` | js/main.js:78-83 | from either stylesheet, two clicks restore the stylesheet, and the stored theme is then the one it names |
| `Theme.UnknownSavedThemeNotRestored` | js/main.js:70-80 | a saved theme `sepia` loads a sheet that the handler reads as not light; two clicks then end on the dark sheet, not the original one |
| `Theme.DarkModeClassInverted` | js/main.js:81 | as written, the `dark-mode` class is removed when switching to the dark sheet and added when switching to the light one; the corrected rule does the opposite |
| `Theme.ThemeSwitcher.constructor` | js/main.js:68-75 | loads the stylesheet of the saved theme, keeps the store, and leaves the `dark-mode` class off |
| `Theme.ThemeSwitcher.Click` | js/main.js:78-83 | the new stylesheet is the one for the flipped theme; the stored `"theme"` equals the new theme and no other entry changes; the `dark-mode` class is on exactly with the dark sheet |
| `Theme.ThemeSwitcher.ClickAsWritten` | js/main.js:78-83 | the click handler as written: the same stylesheet and stored theme as `Click`, but the `dark-mode` class is left on exactly with the light stylesheet |
| `Theme.ClickTwice` | js/main.js:78-83 | two clicks from either stylesheet restore the stylesheet and store the original theme; the class then matches the sheet, so it is restored when it matched the sheet before (not after the constructor on a saved dark theme, where the class starts off) |
| `ProjectFilter.ActiveAfter` | js/main.js:256-257 | after a click exactly the clicked button is active |
| `ProjectFilter.DisplayUnder` | js/main.js:263-269 | a card is `block` exactly when the filter is `all` or equals its category, and `none` otherwise |
| `ProjectFilter.ExactlyOneActive` | js/main.js:256-257 | the set of active buttons after a click is exactly the clicked one |
| `ProjectFilter.ShowAllShowsEveryCard` | js/main.js:264 | the `all` filter shows every card |
| `ProjectFilter.FilterShowsOnlyItsCategory` | js/main.js:264-268 | any other filter shows exactly the cards of its category |
| `ProjectFilter.ClickFilter` | js/main.js:252-271 | updates the button flags and card displays in place to exactly those two functions of the clicked button, whatever the earlier state |

## Left out

- The loader, custom cursor, typing effect, smooth scrolling, scroll-in animations and
  back-to-top button. These are timer- and event-driven style changes with no state rule
  behind them.
- The HTML builders `createSkillItem`, `createSkillCategory` and `createProjectCard`, the
  constant `skillsData` and `projectsData`, and the `renderSkills` and `renderProjects` calls.
  They interpolate constant data into markup.
- The e-mail library's behaviour: how `emailjs.send` reaches the network, and when it resolves
  or rejects. Its answer is a parameter of each call.
- `Date.now`: the two clock readings are parameters of each submit event.
- The 5-second `setTimeout` that removes each banner: banners accumulate in the model.
- Interleaving: the handler runs as one step. In the browser, other events can run while the
  service call is pending.
- Failures of the browser store (disabled storage, quota errors).
- `Screening.IsValidInput`: measures length in characters (Unicode scalar values), not in
  UTF-16 code units. A string with characters outside the Basic Multilingual Plane therefore
  counts shorter here than `input.length` does.
- `Theme.ThemeSwitcher.Click`: keeps the stylesheet address as it was assigned. A browser
  returns it resolved to an absolute URL; the `includes` test gives the same answer for the
  two addresses the handler writes.
- `Theme.ThemeSwitcher.Click`: sets the `dark-mode` class by the corrected rule (see
  Findings). `Theme.DarkModeClassAsWritten` and `Theme.ThemeSwitcher.ClickAsWritten` give what line 81 does.
- `ContactForm.ContactForm.HandleSubmit` and `ContactForm.ContactForm.ValidateFormSubmission`:
  use the intended 60000 ms gate (see Findings). `ContactForm.GateAsWritten` and
  `ContactForm.ContactForm.HandleSubmitAsWritten` give what the code does.
- The form's field values are assumed present. The page's form has `name`, `email` and
  `message` fields, so the form data never lacks one.
- The project cards are given as a sequence of `data-category` values (`None` when the
  attribute is absent), not re-queried from the document.

## Findings

| source | as written | input that shows it | evidently intended | confidence | as-written member | corrected member |
|---|---|---|---|---|---|---|
| js/main.js:467 | `validateFormSubmission` compares against `CONTACT_FORM_COOLDOWN`, a `const` declared only inside `initializeContactForm` (line 155). The top-level function cannot see it, so every submit event throws a ReferenceError before the form is read, and no message is ever sent | the first submission on a page: `lastSubmissionTime` = 0, clock at 1700000000000 | block only when `now - lastSubmissionTime < 60000` | high; not executed | `ContactForm.GateAsWritten`, `ContactForm.ScopingBugBlocksFirstSubmission` | `ContactForm.Gate`, `ContactForm.ContactForm.ValidateFormSubmission`, `ContactForm.ContactForm.HandleSubmit` |
| js/main.js:81 | the click handler calls `toggle('dark-mode', !isLight)`, where `isLight` describes the sheet before the click. The class is therefore removed when switching to the dark sheet and added when switching to the light one. Line 72 pairs the class with the dark theme | one click from the light stylesheet | `dark-mode` present exactly with the dark stylesheet | medium; not executed | `Theme.DarkModeClassAsWritten`, `Theme.ThemeSwitcher.ClickAsWritten`, `Theme.DarkModeClassInverted` | `Theme.ThemeSwitcher.Click` |
