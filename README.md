# Waitlist onboarding form

A model of the three-step "Consultant Onboarding" waitlist form on the MatchKin
landing page. The page keeps the form's state in four component fields: the
current step (1 to 3), a "submitted" flag, a record of per-field error
messages, and the registration draft of ten text fields. It updates that state
from event handlers:

- `validateStep` checks one step's required fields and replaces the error record.
- Next validates the current step and moves forward when the step passes.
- Back moves one step back and clears every error.
- Submit validates step 2 and raises the submitted flag. It also schedules a
  one-shot timer that resets the step, the submitted flag and the draft (the
  error record is left as it is).
- Editing a field stores the new value and blanks that field's error message.

The model has four modules:

- `FieldChecks` (`field_checks.dfy`) holds the character-level tests. JavaScript's
  `trim()` becomes `Trim`, and a field is blank when `Trim` leaves nothing. The
  email pattern `^[^\s@]+@[^\s@]+\.[^\s@]+$` appears twice: `MatchesEmailPattern`
  reads the regular expression literally, and `HasEmailShape` is an executable
  test. A lemma proves the two agree on every string.
- `Registration` (`form_data.dfy`) holds the draft `FormData`, the `Field` names,
  and single-field update.
- `StepValidation` (`step_validation.dfy`) defines the error record of a step:
  `StepErrors` is the specification, and `ComputeStepErrors` builds the record by
  insertion the way the page does. The lemmas state which errors appear and when
  a step passes.
- `Waitlist` (`waitlist_form.dfy`) holds the class `OnboardingForm`, which has the
  four state fields plus `resetPending` for the scheduled reset. Its methods are
  the handlers, and `TimerFires` is the body of the timer as an explicit action.
  Each handler requires what the page's rendering guarantees when it calls it:
  - Back is shown only above step 1.
  - Next is shown only below step 3.
  - Submit is shown only at step 3, and is disabled while submitted.
  - Each input is on screen only at its own step.

  The class invariant `Valid()` keeps the step in 1..3. It keeps the submitted
  flag equal to "reset pending". It also states that step 2 and step 3 are only
  reached with the earlier steps passing. From that invariant, Submit always goes
  through, even though it re-validates step 2 and not step 3. This relies on
  edits reaching only the inputs on screen (see "Left out").

Three details of the code that a reader might not expect:
- Email "required" is decided on the trimmed value, not on the empty string.
- Submit re-validates step 2; it is not an "advance" from step 3.
- The reset timer is never cancelled.

## Model

| member | source | states |
|---|---|---|
| FieldChecks.Trim | app/page.tsx:80-81 | `trim()` leaves nothing exactly when the value is all white space; what it leaves neither starts nor ends with white space |
| FieldChecks.TrimCutsWhitespaceEnds | app/page.tsx:80-81 | what `trim()` returns is a contiguous slice of the value with only white space before and after it |
| FieldChecks.IsBlank | app/page.tsx:80-81 | `!value.trim()` holds exactly when the value is all white space (the empty string included) |
| FieldChecks.HasEmailShape | app/page.tsx:82 | the executable form of `.test(formData.email)`; `EmailShapeMatchesPattern` proves it accepts exactly what the regular expression matches |
| FieldChecks.EmailShapeMinLength | app/page.tsx:82 | the email test accepts nothing shorter than five characters (`a@b.c`) |
| FieldChecks.ShapeImpliesPattern | app/page.tsx:82 | every string the executable email test accepts matches `^[^\s@]+@[^\s@]+\.[^\s@]+$` |
| FieldChecks.PatternImpliesShape | app/page.tsx:82 | every string the email pattern matches has no white space, exactly one `@` with something before it, and a `.` after it with a character on each side |
| FieldChecks.EmailShapeMatchesPattern | app/page.tsx:82 | the executable email test and the regular expression accept the same strings |
| FieldChecks.EmailExamples | app/page.tsx:82 | `"foo"` fails the pattern, `"a@b.com"` matches, and `" a@b.com "` is not blank yet fails, because the pattern runs on the untrimmed value |
| FieldChecks.WhitespaceFailsEmail | app/page.tsx:81-82 | a value with white space anywhere, at its ends included, never matches the email pattern |
| Registration.With | app/page.tsx:129 | the spread update sets field `f` to the new value and leaves the other nine fields unchanged |
| StepValidation.StepError | app/page.tsx:78-88 | the message a step records for one field; a non-empty message is only ever recorded for a field that step checks |
| StepValidation.StepErrors | app/page.tsx:76-88 | the record `validateStep` builds: its keys are always among the fields that step checks |
| StepValidation.StepFields | app/page.tsx:799-1138 | the fields whose inputs are rendered at each step (accountType, fullName, email, phone at 1; industry, jobTitle, bio at 2; location, hourlyRate, additionalInfo at 3); every field a step validates is on screen at that step, and no step number outside 1..3 shows any |
| StepValidation.ComputeStepErrors | app/page.tsx:76-88 | building the record by conditional insertion yields exactly the step's specified error record |
| StepValidation.StepErrorsScope | app/page.tsx:78-90 | step 1 can only report accountType, fullName and email; step 2 only industry and jobTitle; any other step number reports nothing |
| StepValidation.BlankHandling | app/page.tsx:79-87 | accountType and industry are missing exactly when `""`; fullName and jobTitle are missing exactly when all white space |
| StepValidation.EmailErrorCases | app/page.tsx:81-82 | an email error appears exactly when the value is blank or fails the pattern; "required" exactly when blank, "invalid" exactly when not blank but failing the pattern |
| StepValidation.StepOnePasses | app/page.tsx:78-83 | step 1 passes exactly when an account type is set, the name is not blank and the email matches the pattern |
| StepValidation.StepTwoPasses | app/page.tsx:85-88 | step 2 passes exactly when an industry is set and the job title is not blank |
| StepValidation.EmptyFormErrors | app/page.tsx:56-88 | on the initial empty draft, step 1 reports exactly accountType, fullName and email ("required"), and step 2 exactly industry and jobTitle |
| StepValidation.StepErrorsReadOwnFields | app/page.tsx:78-88 | a step's errors depend only on the fields shown at that step |
| StepValidation.EditKeepsEarlierSteps | app/page.tsx:128-133 | editing a field whose input is on screen at the current step never changes the outcome of an earlier step's validation |
| StepValidation.HappyPathStepOne | app/page.tsx:78-83 | "individual", "Jane Doe", "jane@x.com" pass step 1 |
| StepValidation.HappyPathStepTwo | app/page.tsx:85-88 | "technology", "Consultant" pass step 2 |
| Waitlist.OnboardingForm.constructor | app/page.tsx:49-66 | the initial state: step 1, not submitted, no errors, every field `""`, no reset pending |
| Waitlist.OnboardingForm.ValidateStep | app/page.tsx:75-92 | replaces the whole error record with the step's record and returns true exactly when that record is empty |
| Waitlist.OnboardingForm.HandleNext | app/page.tsx:94-98 | below step 3: the step's errors replace the record; the step goes up by one exactly when they are empty and stays otherwise; the draft and the flag are unchanged; the invariant holds |
| Waitlist.OnboardingForm.HandleBack | app/page.tsx:100-103 | above step 1: one step back, the error record emptied with no validation, the draft and the flag unchanged |
| Waitlist.OnboardingForm.HandleSubmit | app/page.tsx:105-108 | at step 3 and not submitted: the record becomes step 2's errors; the flag goes up exactly when they are empty, which from step 3 is always; the step and the draft are unchanged |
| Waitlist.OnboardingForm.TimerFires | app/page.tsx:109-124 | the pending reset sets the flag down, the step to 1 and every field to `""`, whatever was done since the submission, and leaves the errors alone |
| Waitlist.OnboardingForm.UpdateFormData | app/page.tsx:128-133 | only field `f` of the draft changes; the error keys stay; `f`'s message becomes `""` if present; other messages, the step and the flag are unchanged |
| Waitlist.SubmitThenReset | app/page.tsx:94-124 | for any answers that pass steps 1 and 2, filling them in and pressing Next, Next, Submit reaches step 3 and submits with no errors; a later Back and edit do not stop the reset to the empty draft at step 1 |

## Left out

- Rendering, styling and animation (the JSX, Tailwind classes, framer-motion variants, the step indicator) are presentation with no behavioural contract.
- The scroll-linked transforms and the random particle positions are floating point and nondeterministic.
- The theme toggle and its `dark` class on the document, and `scrollIntoView`, are browser side effects.
- The 3000 ms delay and real time are not modelled. Submit sets `resetPending`, and a later `TimerFires` applies the reset; nothing cancels it, and unmounting the page is not modelled.
- React's batching and stale closures are not modelled: each handler runs atomically against the current state.
- The list of industries and its lower-case option values are not modelled: validation never checks membership, so `industry` is any string. The same holds for the two account-type values.
- Waitlist.OnboardingForm.UpdateFormData: requires that the field's input be on screen at the current step (app/page.tsx:799, 956, 1058). During the 0.3 s exit animation of a step, its inputs may briefly stay mounted; edits made in that window are not modelled. That window is the only way the page can reach step 3 with a step 2 that fails, so it is the only way the failing branch of Submit can run; the model's claim that Submit always goes through from step 3 holds only without such edits.
- `IsWhitespace` lists the ECMAScript white-space and line-terminator code points. Dafny characters are Unicode scalar values, while JavaScript strings are UTF-16 code units; none of the listed code points needs a surrogate pair, so the two tests agree on every string of Unicode scalar values. A JavaScript string holding a lone surrogate code unit has no counterpart in the model.
- The imported UI components and icons are foreign code that is not part of this model.
