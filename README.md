# Assessment-creation wizard: a Dafny model

This project models the client-side flow that creates a timed assessment
("contest"). A host fills a draft in three sections: the assessment overview,
the test configuration and the section details. Next is gated by a per-step
validation. At step 2 a successful Next saves the draft under a freshly
generated contest id and then asks the server for an access token. With a
token in hand, the wizard keeps it under `contestToken` and navigates to the
section-details page.

The modules follow the repository's files:

- `Forms` (forms.dfy): what the three components share. A field value is a
  text, a checkbox state or a list of titles. It also holds the change event's
  target, the spread-based updaters `SetField` / `SetDraftField`, JavaScript
  truthiness, and the log of outward effects (alerts, navigations, storage
  writes, the two remote requests).
- `Cursor` (cursor.dfy): the step arithmetic and the button guards, which
  both steppers use.
- `Cookies` (cookies.dfy): the `csrftoken` value read from the cookie string.
  It includes a model of JavaScript's `String.prototype.split`.
- `Wizard` (wizard.dfy): frontend/src/pages/singleFile.jsx. The class
  `Stepper` holds `currentStep`, `formData`, `contestId` and the effects log.
  The pure functions `ValidateStep`, `NextCursor`, `NextContestId` and
  `NextEffects` specify `NextStep`, and the lemmas state what the component
  promises about them.
- `AssessmentOverview` (overview.dfy) and `TestConfiguration`
  (testconfig.dfy): the two older copies under frontend/dump.

Some things are parameters rather than part of the state. These are the
generated contest id, the cookie string, and the outcomes of the save and
start-contest requests. The save outcome is taken by `NextStep` but does not
appear in `NextEffects`: the component only logs it. The token request is
therefore made after a failed save as well.

What the code does, and the model with it:

- A failed save does not abort the token request.
- The cursor never advances to 3. At step 2, Next only navigates away, and
  `Stepper.Valid()` keeps the cursor in 1..2.
- Nothing guards against a second Next while a submission is pending.
- `registrationEnd` is never checked against `registrationStart`.
- No range check is made on `passPercentage` or on the counts.
- The radio options are stored as the strings the code renders
  ("Immediate release", "Host Control", "Stay until test ends", …).

## Model

| member | source | states |
|---|---|---|
| `Forms.SetField` | frontend/dump/TestConfiguration.jsx:21-27 | the new record has the old keys plus `name`; `name` maps to `checked` for a checkbox and to `value` otherwise; every other key is unchanged |
| `Forms.SetDraftField` | frontend/src/pages/singleFile.jsx:70-80 | only section `step` is rebuilt, from the old section (or from nothing if it was undefined), with the one field written; every other section is unchanged |
| `Forms.SetDraftFieldLookup` | frontend/src/pages/singleFile.jsx:82-92 | after a change, `formData[s][n]` reads the new value exactly when `s`/`n` is the edited section and field, and reads as before otherwise |
| `Forms.SetFieldLastWriteWins` | frontend/dump/TestConfiguration.jsx:21-27 | two writes to one field leave the same record as the second write alone |
| `Forms.SetDraftFieldLastWriteWins` | frontend/src/pages/singleFile.jsx:70-80 | two writes to one field of one section leave the same draft as the second write alone |
| `Forms.EditsLastWriteWins` | frontend/src/pages/singleFile.jsx:70-92 | after any sequence of change events, each field holds the value of its latest edit, and a field never edited keeps its prior value |
| `Forms.ApplyEditsKeepsKeys` | frontend/src/pages/singleFile.jsx:73-79 | change events never remove a section or a field |
| `Cursor.AdvanceSteps` | frontend/dump/AssessmentOverview.jsx:40-42 | within 1..3, Next adds one iff the step is below 3, is a no-op exactly at 3, and stays in 1..3 |
| `Cursor.RetreatSteps` | frontend/dump/AssessmentOverview.jsx:44-46 | within 1..3, Previous subtracts one iff the step is above 1, is a no-op exactly at 1, and stays in 1..3 |
| `Cursor.RetreatUndoesAdvance` | frontend/dump/AssessmentOverview.jsx:40-46 | from step 1 or 2, Next followed by Previous returns to the same step |
| `Cursor.RunStaysInRange` | frontend/dump/AssessmentOverview.jsx:40-46 | any sequence of Next/Previous clicks started in 1..3 stays in 1..3 |
| `Cursor.NextOrSubmit` | frontend/dump/AssessmentOverview.jsx:187-202 | on every step exactly one of Next and Submit is rendered |
| `Cookies.Split` | frontend/src/pages/singleFile.jsx:99-100 | a split always yields at least one piece |
| `Cookies.SplitFirstIsPrefix` | frontend/src/pages/singleFile.jsx:99-100 | the first piece of a split is a prefix of the input |
| `Cookies.SplitPieces` | frontend/src/pages/singleFile.jsx:99-100 | no piece of a split on a non-empty separator (such as `"; "`) contains the separator: every occurrence was cut |
| `Cookies.JoinSplit` | frontend/src/pages/singleFile.jsx:99-100 | joining the pieces of a split with the separator gives back the original string |
| `Cookies.SplitCharPieces` | frontend/src/pages/singleFile.jsx:102 | splitting on a one-character separator leaves that character in no piece |
| `Cookies.SplitCharSingle` | frontend/src/pages/singleFile.jsx:102 | a split on one character yields a single piece iff the character does not occur |
| `Cookies.FirstMatch` | frontend/src/pages/singleFile.jsx:101 | the index found starts with the prefix and no earlier row does; no index means no row does |
| `Cookies.ValueBetweenEquals` | frontend/src/pages/singleFile.jsx:102 | the second `=`-piece of an entry is the text between its first `=` and its second `=` (or its end) and contains no `=` |
| `Cookies.CsrfTokenAbsent` | frontend/src/pages/singleFile.jsx:99-102 | the token is undefined iff no `"; "`-separated entry starts with "csrftoken", or the first such entry contains no `=` |
| `Cookies.CsrfTokenPresent` | frontend/src/pages/singleFile.jsx:99-102 | a defined token is the text between the first and the second `=` of the first entry that starts with "csrftoken" |
| `Wizard.InitialDraftBlank` | frontend/src/pages/singleFile.jsx:10-37 | the mounted draft has all six overview fields and the four required configuration fields "", all seven toggles off, and no section titles |
| `Wizard.StepOneNeedsEveryField` | frontend/src/pages/singleFile.jsx:40-57 | step 1 fails when any of the six overview fields is missing or "" |
| `Wizard.StepOneIff` | frontend/src/pages/singleFile.jsx:40-57 | for text-valued overview fields, step 1 passes iff all six are non-empty |
| `Wizard.StepTwoIff` | frontend/src/pages/singleFile.jsx:58-62 | for text-valued fields, step 2 passes iff sections, questions, duration and passPercentage are all non-empty |
| `Wizard.StepThreeIff` | frontend/src/pages/singleFile.jsx:63-66 | step 3 passes iff the section-title list is non-empty |
| `Wizard.OtherStepsPass` | frontend/src/pages/singleFile.jsx:67 | any other cursor value passes validation |
| `Wizard.ValidateIgnoresOtherFields` | frontend/src/pages/singleFile.jsx:58-61 | validation at steps 1 and 2 is unaffected by edits to other sections, and at step 2 by edits to toggles and radio groups |
| `Wizard.InitialDraftBlocksEveryStep` | frontend/src/pages/singleFile.jsx:10-68 | the mounted draft fails validation at steps 1, 2 and 3 |
| `Wizard.InvalidNextChangesNothing` | frontend/src/pages/singleFile.jsx:104-145 | when validation fails, Next leaves the cursor and the contest id unchanged, makes no request, and only raises the "fill in all required fields" alert |
| `Wizard.ValidNextFromOne` | frontend/src/pages/singleFile.jsx:139-141 | a valid Next at step 1 moves to step 2, keeps the contest id and has no effect |
| `Wizard.SubmissionOrder` | frontend/src/pages/singleFile.jsx:106-114 | a valid Next at step 2 stores the generated id, first saves `{contestId, assessmentOverview, testConfiguration}` of the current draft under it, then posts the same id, and leaves the cursor at 2; a token leads to exactly four effects ending with the token stored and the navigation, a failure to exactly three ending with the one alert |
| `Wizard.TokenStoredOnlyOnSuccess` | frontend/src/pages/singleFile.jsx:122-136 | the token is stored under "contestToken", and navigation to "/sectionDetails" is requested, exactly when a valid step-2 Next gets a token; on failure the log holds exactly three effects, the last and only alert being "Failed to start the contest" |
| `Wizard.RequestsOnlyFromStepTwo` | frontend/src/pages/singleFile.jsx:104-138 | a save or start-contest request is made iff Next is valid at step 2 |
| `Wizard.CursorNeverReachesThree` | frontend/src/pages/singleFile.jsx:137-149 | from step 1 or 2, neither Next nor Previous leaves 1..2 |
| `Wizard.SubmittedDraftHoldsLastWrites` | frontend/src/pages/singleFile.jsx:160-165 | every field of the saved overview and configuration holds its latest edited value, or its initial value when never edited |
| `Wizard.UnboundTogglesMissTheDraft` | frontend/src/pages/singleFile.jsx:494-500 | the scoring toggles, bound without a section, change neither the save payload nor any step's validation |
| `Wizard.Stepper.constructor` | frontend/src/pages/singleFile.jsx:7-37 | the wizard mounts at step 1 with the initial draft, no contest id and no effects |
| `Wizard.Stepper.HandleChange` | frontend/src/pages/singleFile.jsx:70-92 | the new draft is the old one with `formData[step][name]` written |
| `Wizard.Stepper.SaveDataToMongoDB` | frontend/src/pages/singleFile.jsx:160-184 | one save request with the id and the current overview and configuration is made, and whatever its outcome nothing else happens |
| `Wizard.Stepper.NextStep` | frontend/src/pages/singleFile.jsx:104-145 | cursor, contest id and effects become `NextCursor`, `NextContestId` and old effects + `NextEffects`; the save outcome has no influence; the cursor stays in 1..2 |
| `Wizard.Stepper.PreviousStep` | frontend/src/pages/singleFile.jsx:147-149 | the cursor moves back one step above step 1 and nothing else changes |
| `Wizard.Stepper.Buttons` | frontend/src/pages/singleFile.jsx:746-761 | Previous is rendered only on step 2 and Next always |
| `AssessmentOverview.Stepper.constructor` | frontend/dump/AssessmentOverview.jsx:4-27 | the stepper mounts at step 1 with its initial draft |
| `AssessmentOverview.Stepper.HandleInputChange` | frontend/dump/AssessmentOverview.jsx:29-38 | only `formData[step][name]` is written; the cursor is untouched |
| `AssessmentOverview.Stepper.NextStep` | frontend/dump/AssessmentOverview.jsx:40-42 | the cursor advances below step 3, without validation and without touching the draft |
| `AssessmentOverview.Stepper.PreviousStep` | frontend/dump/AssessmentOverview.jsx:44-46 | the cursor moves back above step 1, and is a no-op at step 1 |
| `AssessmentOverview.Stepper.HandleFinalSubmit` | frontend/dump/AssessmentOverview.jsx:48-51 | only the "Form Submitted!" alert is raised; cursor and draft are untouched |
| `AssessmentOverview.Stepper.Buttons` | frontend/dump/AssessmentOverview.jsx:179-202 | Previous iff step > 1, Next iff step < 3, Submit iff step = 3, and never Next and Submit together |
| `TestConfiguration.InitialFormBlank` | frontend/dump/TestConfiguration.jsx:7-19 | every text and number field starts as "", every toggle as off, and no other field exists |
| `TestConfiguration.RenderedChangesKeepWellFormed` | frontend/dump/TestConfiguration.jsx:169-177 | whatever the page's inputs fire, `resultVisibility` only ever holds "", "Immediate release" or "After test completed", and no field appears or vanishes |
| `TestConfiguration.Page.constructor` | frontend/dump/TestConfiguration.jsx:4-19 | the page mounts with the initial form and no effects |
| `TestConfiguration.Page.HandleChange` | frontend/dump/TestConfiguration.jsx:21-27 | the new form is the old one with `formData[name]` written |
| `TestConfiguration.Page.HandleSubmit` | frontend/dump/TestConfiguration.jsx:29-33 | navigation to "/section-details" is requested whatever the form holds, and the form is untouched |
| `TestConfiguration.Page.PreviousClick` | frontend/dump/TestConfiguration.jsx:186-192 | navigation to "/" is requested |

## Left out

- Rendering, CSS classes, labels and placeholders are presentation only.
- HTTP transport is not modelled. This covers `fetch`, `axios`, headers, JSON encoding and the localhost URLs. Each request is an effect, and its outcome is a parameter. The one header kept is the CSRF token value, recorded in the start-contest effect.
- `generateContestId` uses `Math.random().toString(36)`, which is random and float-based. The generated id is a parameter of `Wizard.Stepper.NextStep`.
- `document.cookie` and `localStorage` are ambient browser state. The cookie string is a parameter, and a storage write is an effect.
- `console.log` and `console.error` are not modelled. The save outcome is matched on and then dropped.
- Asynchrony and re-entry are not modelled. A second Next while a submission is pending is not represented. The model makes no at-most-one-submission claim, because the code makes none.
- `handleFinalSubmit` in singleFile.jsx is not modelled: no Submit button is rendered for it, and it only logs and alerts.
- `activeTab` and `handleTabClick` drive nothing, so they are not modelled.
- The two `<form onSubmit={handleChange}>` bindings are not modelled. Each passes the submit event as a change event, and neither form has a submit button.
- `Wizard.TitleCount` reads a missing `sectionTitles` as length 0, where JavaScript would throw a TypeError. `Stepper.Valid()` keeps the section present, and `HandleChange` never removes a field.
- The message of a thrown start-contest error (logged only) is not modelled, nor is the value a response without a `token` field would store.
- frontend/src/App.js is a routing table and is not part of this model.
