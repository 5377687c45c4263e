/** The step validator: which fields of the draft are missing or malformed
    for a given step of the form, with the message the form shows for each. */
module StepValidation {
  import opened FieldChecks
  import opened Registration

  const AccountTypeRequired := "Please select an account type"
  const FullNameRequired := "Full name is required"
  const EmailRequired := "Email is required"
  const EmailInvalid := "Invalid email format"
  const IndustryRequired := "Please select your primary industry"
  const JobTitleRequired := "Job title is required"

  /** The message validation of `step` records for field `f`, or `""` when it
      records none. `accountType` and `industry` are tested untrimmed;
      `fullName`, `jobTitle` and the presence of `email` are tested trimmed,
      and the email pattern runs on the untrimmed value. */
  function StepError(d: FormData, step: int, f: Field): (msg: string)
    ensures msg != "" ==> f in RequiredFields(step)
  {
    match f
    case AccountType => if step == 1 && d.accountType == "" then AccountTypeRequired else ""
    case FullName => if step == 1 && IsBlank(d.fullName) then FullNameRequired else ""
    case Email =>
      if step != 1 then ""
      else if IsBlank(d.email) then EmailRequired
      else if !HasEmailShape(d.email) then EmailInvalid
      else ""
    case Industry => if step == 2 && d.industry == "" then IndustryRequired else ""
    case JobTitle => if step == 2 && IsBlank(d.jobTitle) then JobTitleRequired else ""
    case _ => ""
  }

  /** The error record validation of `step` produces: one entry per checked
      field that has a message, and nothing else. */
  function StepErrors(d: FormData, step: int): (r: map<Field, string>)
    ensures r.Keys <= RequiredFields(step)
  {
    map f | f in RequiredFields(step) && StepError(d, step, f) != "" :: StepError(d, step, f)
  }

  /** A record that agrees with the step's messages field by field is the step's record. */
  lemma RecordIsStepErrors(m: map<Field, string>, d: FormData, step: int)
    requires forall f :: f in m <==> f in RequiredFields(step) && StepError(d, step, f) != ""
    requires forall f :: f in m ==> m[f] == StepError(d, step, f)
    ensures m == StepErrors(d, step)
  {
  }

  /** The fields validation of `step` checks. */
  function RequiredFields(step: int): set<Field>
  {
    if step == 1 then {AccountType, FullName, Email}
    else if step == 2 then {Industry, JobTitle}
    else {}
  }

  /** The fields whose inputs are on screen at `step`: every field the step
      validates is among them, and no step outside 1..3 shows any. */
  function StepFields(step: int): (r: set<Field>)
    ensures RequiredFields(step) <= r
    ensures r != {} ==> 1 <= step <= 3
  {
    if step == 1 then {AccountType, FullName, Email, Phone}
    else if step == 2 then {Industry, JobTitle, Bio}
    else if step == 3 then {Location, HourlyRate, AdditionalInfo}
    else {}
  }

  /** Builds the error record the way `validateStep` does: start empty and
      insert an entry for each failed check of the step. */
  method ComputeStepErrors(d: FormData, step: int) returns (newErrors: map<Field, string>)
    ensures newErrors == StepErrors(d, step)
  {
    newErrors := map[];
    if step == 1 {
      if d.accountType == "" { newErrors := newErrors[AccountType := AccountTypeRequired]; }
      if IsBlank(d.fullName) { newErrors := newErrors[FullName := FullNameRequired]; }
      if IsBlank(d.email) {
        newErrors := newErrors[Email := EmailRequired];
      } else if !HasEmailShape(d.email) {
        newErrors := newErrors[Email := EmailInvalid];
      }
    }
    if step == 2 {
      if d.industry == "" { newErrors := newErrors[Industry := IndustryRequired]; }
      if IsBlank(d.jobTitle) { newErrors := newErrors[JobTitle := JobTitleRequired]; }
    }
    RecordIsStepErrors(newErrors, d, step);
  }

  /** Only the step's own required fields can fail: `accountType`, `fullName`
      and `email` at step 1, `industry` and `jobTitle` at step 2, and any
      other step number (step 3 included) produces an empty record. */
  lemma StepErrorsScope(d: FormData, step: int)
    ensures step == 1 ==> StepErrors(d, step).Keys <= {AccountType, FullName, Email}
    ensures step == 2 ==> StepErrors(d, step).Keys <= {Industry, JobTitle}
    ensures step != 1 && step != 2 ==> StepErrors(d, step) == map[]
  {
  }

  /** Blank handling differs by field: the select-backed fields fail only on
      the empty string, the text fields also on white space alone. */
  lemma BlankHandling(d: FormData)
    ensures AccountType in StepErrors(d, 1) <==> d.accountType == ""
    ensures FullName in StepErrors(d, 1) <==> AllWhitespace(d.fullName)
    ensures Industry in StepErrors(d, 2) <==> d.industry == ""
    ensures JobTitle in StepErrors(d, 2) <==> AllWhitespace(d.jobTitle)
  {
    assert AccountType in RequiredFields(1) && FullName in RequiredFields(1);
    assert Industry in RequiredFields(2) && JobTitle in RequiredFields(2);
  }

  /** The email entry: "required" exactly when the value is all white space,
      "invalid" exactly when it is not but the pattern does not match it. */
  lemma EmailErrorCases(d: FormData)
    ensures Email in StepErrors(d, 1) <==> AllWhitespace(d.email) || !MatchesEmailPattern(d.email)
    ensures Email in StepErrors(d, 1) ==>
      (StepErrors(d, 1)[Email] == EmailRequired <==> AllWhitespace(d.email))
    ensures Email in StepErrors(d, 1) ==>
      (StepErrors(d, 1)[Email] == EmailInvalid <==> !AllWhitespace(d.email) && !MatchesEmailPattern(d.email))
  {
    EmailShapeMatchesPattern(d.email);
    assert Email in RequiredFields(1);
  }

  /** Step 1 passes exactly when an account type is chosen, the name is not
      blank and the email matches the pattern. */
  lemma StepOnePasses(d: FormData)
    ensures StepErrors(d, 1) == map[] <==>
      d.accountType != "" && !AllWhitespace(d.fullName) && MatchesEmailPattern(d.email)
  {
    BlankHandling(d);
    EmailErrorCases(d);
    if d.accountType != "" && !AllWhitespace(d.fullName) && MatchesEmailPattern(d.email) {
      assert StepErrors(d, 1).Keys == {};
    }
  }

  /** Step 2 passes exactly when an industry is chosen and the job title is not blank. */
  lemma StepTwoPasses(d: FormData)
    ensures StepErrors(d, 2) == map[] <==> d.industry != "" && !AllWhitespace(d.jobTitle)
  {
    BlankHandling(d);
    if d.industry != "" && !AllWhitespace(d.jobTitle) {
      assert StepErrors(d, 2).Keys == {};
    }
  }

  /** On the draft of a freshly loaded page, step 1 reports exactly the
      account type, the name and a missing email, and step 2 exactly the
      industry and the job title. */
  lemma EmptyFormErrors()
    ensures StepErrors(EmptyForm, 1) ==
      map[AccountType := AccountTypeRequired, FullName := FullNameRequired, Email := EmailRequired]
    ensures StepErrors(EmptyForm, 2) == map[Industry := IndustryRequired, JobTitle := JobTitleRequired]
  {
    assert IsBlank("");
    assert StepErrors(EmptyForm, 1).Keys == {AccountType, FullName, Email};
    assert StepErrors(EmptyForm, 2).Keys == {Industry, JobTitle};
  }

  /** Validation of a step reads only the fields shown on that step, so
      editing a field of another step cannot change its outcome. */
  lemma StepErrorsReadOwnFields(d: FormData, e: FormData, step: int)
    requires forall f :: f in StepFields(step) ==> Get(d, f) == Get(e, f)
    ensures StepErrors(d, step) == StepErrors(e, step)
  {
    forall f | f in RequiredFields(step)
      ensures StepError(d, step, f) == StepError(e, step, f)
    {
      assert Get(d, f) == Get(e, f);
    }
  }

  /** Editing a field whose input is on screen at `step` leaves the outcome
      of every earlier step as it was. */
  lemma EditKeepsEarlierSteps(d: FormData, f: Field, v: string, step: int)
    requires f in StepFields(step)
    ensures step >= 2 ==> StepErrors(With(d, f, v), 1) == StepErrors(d, 1)
    ensures step == 3 ==> StepErrors(With(d, f, v), 2) == StepErrors(d, 2)
  {
    if step >= 2 { StepErrorsReadOwnFields(d, With(d, f, v), 1); }
    if step == 3 { StepErrorsReadOwnFields(d, With(d, f, v), 2); }
  }

  /** A complete set of step-1 answers passes step 1. */
  lemma HappyPathStepOne(d: FormData)
    requires d.accountType == "individual" && d.fullName == "Jane Doe" && d.email == "jane@x.com"
    ensures StepErrors(d, 1) == map[]
  {
    var e := d.email;
    assert e[..4] == "jane" && e[5..6] == "x" && e[7..] == "com";
    assert IsAddressRun(e[..4]) && IsAddressRun(e[5..6]) && IsAddressRun(e[7..]);
    assert e[4] == '@' && e[6] == '.';
    assert !IsWhitespace(d.fullName[0]);
    StepOnePasses(d);
  }

  /** A complete set of step-2 answers passes step 2. */
  lemma HappyPathStepTwo(d: FormData)
    requires d.industry == "technology" && d.jobTitle == "Consultant"
    ensures StepErrors(d, 2) == map[]
  {
    assert !IsWhitespace(d.jobTitle[0]);
    StepTwoPasses(d);
  }
}
