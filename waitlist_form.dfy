/** The three-step onboarding form of the landing page: its state, the event
    handlers that update it, and the one-shot reset a successful submission
    schedules. Each handler runs to completion before the next event; the
    buttons and inputs the page renders for the current state are the
    preconditions of the handlers they call. */
module Waitlist {
  import opened FieldChecks
  import opened Registration
  import opened StepValidation

  class OnboardingForm {
    var currentStep: int
    var isSubmitted: bool
    var errors: map<Field, string>
    var formData: FormData
    /** The post-submit reset has been scheduled and has not run yet. */
    var resetPending: bool

    /** The step stays in 1..3, the "submitted" flag is up exactly while the
        reset is pending, and a step is only reached with the earlier steps'
        fields passing validation. */
    ghost predicate Valid()
      reads this
    {
      && 1 <= currentStep <= 3
      && isSubmitted == resetPending
      && (currentStep >= 2 ==> StepErrors(formData, 1) == map[])
      && (currentStep == 3 ==> StepErrors(formData, 2) == map[])
    }

    /** The state on page load. */
    constructor ()
      ensures Valid()
      ensures currentStep == 1 && !isSubmitted && errors == map[]
      ensures formData == EmptyForm && !resetPending
    {
      currentStep := 1;
      isSubmitted := false;
      errors := map[];
      formData := EmptyForm;
      resetPending := false;
    }

    /** `validateStep`: replaces the whole error record with the one computed
        for `step` and reports whether it is empty. */
    method ValidateStep(step: int) returns (ok: bool)
      modifies this`errors
      ensures errors == StepErrors(formData, step)
      ensures ok <==> errors == map[]
    {
      var newErrors := ComputeStepErrors(formData, step);
      errors := newErrors;
      ok := |newErrors| == 0;
    }

    /** `handleNext`, reachable while the Next button is shown (step below 3):
        moves one step forward exactly when the current step validates. */
    method HandleNext()
      requires Valid() && currentStep < 3
      modifies this`currentStep, this`errors
      ensures Valid()
      ensures errors == StepErrors(formData, old(currentStep))
      ensures currentStep == if errors == map[] then old(currentStep) + 1 else old(currentStep)
      ensures formData == old(formData) && isSubmitted == old(isSubmitted)
    {
      var ok := ValidateStep(currentStep);
      if ok {
        currentStep := currentStep + 1;
      }
    }

    /** `handleBack`, reachable while the Back button is shown (step above 1):
        one step back and every error cleared, with no validation. */
    method HandleBack()
      requires Valid() && currentStep > 1
      modifies this`currentStep, this`errors
      ensures Valid()
      ensures currentStep == old(currentStep) - 1 && errors == map[]
      ensures formData == old(formData) && isSubmitted == old(isSubmitted)
    {
      currentStep := currentStep - 1;
      errors := map[];
    }

    /** `handleSubmit`, reachable while the Submit button is shown (step 3)
        and enabled (not submitted): validates step 2 and, when it passes,
        raises the submitted flag and schedules the reset. Since step 3 is
        only reached through a passing step 2, the submission always goes
        through. */
    method HandleSubmit()
      requires Valid() && currentStep >= 3 && !isSubmitted
      modifies this`errors, this`isSubmitted, this`resetPending
      ensures Valid()
      ensures errors == StepErrors(formData, 2)
      // The conditional of the handler: the flag goes up exactly when step 2 passes ...
      ensures isSubmitted <==> errors == map[]
      // ... which, from step 3, it always does.
      ensures isSubmitted && errors == map[]
      ensures currentStep == old(currentStep) && formData == old(formData)
    {
      var ok := ValidateStep(2);
      if ok {
        isSubmitted := true;
        resetPending := true;
      }
    }

    /** The body of the timer `handleSubmit` schedules: back to step 1 with an
        empty draft and the flag down, whatever happened since the
        submission. The error record is left as it is. */
    method TimerFires()
      requires Valid() && resetPending
      modifies this`isSubmitted, this`currentStep, this`formData, this`resetPending
      ensures Valid()
      ensures !isSubmitted && currentStep == 1 && formData == EmptyForm
      ensures errors == old(errors)
    {
      isSubmitted := false;
      currentStep := 1;
      formData := EmptyForm;
      resetPending := false;
    }

    /** `updateFormData`, called by the inputs of the current step: sets one
        field, and when that field has a non-empty error, blanks the message
        while keeping the entry. */
    method UpdateFormData(f: Field, value: string)
      requires Valid() && f in StepFields(currentStep)
      modifies this`formData, this`errors
      ensures Valid()
      ensures formData == With(old(formData), f, value)
      ensures errors.Keys == old(errors).Keys
      ensures f in errors ==> errors[f] == ""
      ensures forall g :: g in errors && g != f ==> errors[g] == old(errors)[g]
      ensures currentStep == old(currentStep) && isSubmitted == old(isSubmitted)
    {
      EditKeepsEarlierSteps(formData, f, value, currentStep);
      formData := With(formData, f, value);
      if f in errors && errors[f] != "" {
        errors := errors[f := ""];
      }
    }
  }

  /** A complete pass through the form: fill in step 1, Next, fill in step 2,
      Next, Submit; then go Back and edit before the reset fires. With answers
      that pass both steps, every Next moves forward, the submission goes
      through with no errors, and the reset still restores the empty draft at
      step 1. */
  method SubmitThenReset(accountType: string, fullName: string, email: string,
                         industry: string, jobTitle: string, bio: string)
    returns (stepReached: int, submitted: bool, errorsSeen: map<Field, string>,
             stepAfterReset: int, draftAfterReset: FormData)
    requires accountType != "" && !AllWhitespace(fullName) && MatchesEmailPattern(email)
    requires industry != "" && !AllWhitespace(jobTitle)
    ensures stepReached == 3 && submitted && errorsSeen == map[]
    ensures stepAfterReset == 1 && draftAfterReset == EmptyForm
  {
    var form := new OnboardingForm();
    form.UpdateFormData(AccountType, accountType);
    form.UpdateFormData(FullName, fullName);
    form.UpdateFormData(Email, email);
    assert form.formData.accountType == accountType && form.formData.fullName == fullName;
    StepOnePasses(form.formData);
    form.HandleNext();
    assert form.currentStep == 2;
    form.UpdateFormData(Industry, industry);
    form.UpdateFormData(JobTitle, jobTitle);
    assert form.formData.industry == industry;
    StepTwoPasses(form.formData);
    form.HandleNext();
    stepReached := form.currentStep;
    form.HandleSubmit();
    submitted := form.isSubmitted;
    errorsSeen := form.errors;
    form.HandleBack();
    form.UpdateFormData(Bio, bio);
    form.TimerFires();
    stepAfterReset := form.currentStep;
    draftAfterReset := form.formData;
  }
}
