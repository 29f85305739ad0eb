/**
 * The account step of onboarding: every field's check runs and every
 * failure is reported together; the wizard moves on only when there is none.
 */
module AccountSetup {
  import opened Common
  import opened Onboarding

  const FirstNameRequired: string := "First name is required"
  const LastNameRequired: string := "Last name is required"
  const EmailRequired: string := "Email is required"
  const InvalidEmail: string := "Please enter a valid email address"
  const CompanyRequired: string := "Company name is required"
  const RoleRequired: string := "Please select your role"

  /** The text fields the account form edits. */
  datatype Field = FirstName | LastName | Email | Company | Role

  function FieldKey(f: Field): string
  {
    match f
    case FirstName => "firstName"
    case LastName => "lastName"
    case Email => "email"
    case Company => "company"
    case Role => "role"
  }

  /** The error an e-mail gets: required when blank, otherwise invalid when it fails the pattern. */
  function EmailError(email: string): (r: Option<string>)
    ensures Blank(email) ==> r == Some(EmailRequired)
    ensures !Blank(email) ==> (r.None? <==> IsEmail(email))
    ensures r.Some? ==> r.value in {EmailRequired, InvalidEmail}
  {
    if Trim(email) == "" then Some(EmailRequired)
    else if !IsEmail(email) then Some(InvalidEmail)
    else None
  }

  /** The errors of the account form: one per failing field, keyed by field name. */
  function AccountErrors(data: OnboardingData): (r: map<string, string>)
    ensures r.Keys <= {"firstName", "lastName", "email", "company", "role"}
    ensures "firstName" in r <==> Blank(data.firstName)
    ensures "lastName" in r <==> Blank(data.lastName)
    ensures "email" in r <==> EmailError(data.email).Some?
    ensures "company" in r <==> Blank(data.company)
    ensures "role" in r <==> data.role == ""
    ensures "firstName" in r ==> r["firstName"] == FirstNameRequired
    ensures "lastName" in r ==> r["lastName"] == LastNameRequired
    ensures "email" in r ==> r["email"] == EmailError(data.email).value
    ensures "company" in r ==> r["company"] == CompanyRequired
    ensures "role" in r ==> r["role"] == RoleRequired
  {
    var e1: map<string, string> := if Trim(data.firstName) == "" then map["firstName" := FirstNameRequired] else map[];
    var e2 := if Trim(data.lastName) == "" then e1["lastName" := LastNameRequired] else e1;
    var e3 := if EmailError(data.email).Some? then e2["email" := EmailError(data.email).value] else e2;
    var e4 := if Trim(data.company) == "" then e3["company" := CompanyRequired] else e3;
    if data.role == "" then e4["role" := RoleRequired] else e4
  }

  /** The form passes exactly when every field is filled in, the e-mail is well formed and a role is chosen. */
  lemma {:induction false} ValidIffFilledIn(data: OnboardingData)
    ensures AccountErrors(data) == map[] <==>
      !Blank(data.firstName) && !Blank(data.lastName) && !Blank(data.company)
      && IsEmail(data.email) && data.role != ""
  {
    if AccountErrors(data) != map[] {
      var k :| k in AccountErrors(data);
    }
    if IsEmail(data.email) {
      EmailNotBlank(data.email);
    }
  }

  lemma EmailNotBlank(email: string)
    requires IsEmail(email)
    ensures !Blank(email)
  {
    var parts := Split(email, '@');
    SplitHead(email, '@');
    assert email[0] == parts[0][0];
  }

  /** A form that passes also completes the wizard's account step (the converse fails for white-space names). */
  lemma PassingFormCompletesStep(data: OnboardingData)
    requires AccountErrors(data) == map[]
    ensures IsStepCompleted(data, "account")
  {
    ValidIffFilledIn(data);
  }

  /** A name of spaces completes the wizard's account step but fails the form. */
  lemma StepCompleteDoesNotImplyValid()
    ensures var data := OnboardingData(" ", "Smith", "jo@x.io", "Acme", "other", [],
                                       DatabaseSelection(None, None, None));
      IsStepCompleted(data, "account") && "firstName" in AccountErrors(data)
  {
  }

  /** Editing `key` blanks its error, if it has a truthy one, and leaves every other error alone. */
  function ClearError(errors: map<string, string>, key: string): (r: map<string, string>)
    ensures r.Keys == errors.Keys
    ensures forall k :: k in r && k != key ==> r[k] == errors[k]
    ensures key in r ==> r[key] == ""
  {
    if key in errors && errors[key] != "" then errors[key := ""] else errors
  }

  /** The update `{ [field]: value }`. */
  function FieldUpdate(field: Field, value: string): Updates
  {
    match field
    case FirstName => NoUpdates().(firstName := Some(value))
    case LastName => NoUpdates().(lastName := Some(value))
    case Email => NoUpdates().(email := Some(value))
    case Company => NoUpdates().(company := Some(value))
    case Role => NoUpdates().(role := Some(value))
  }

  class AccountSetupForm {
    var errors: map<string, string>

    constructor ()
      ensures errors == map[]
    {
      errors := map[];
    }

    /** Writes the wizard's field and blanks that field's error only. */
    method HandleInputChange(wizard: OnboardingWizard, field: Field, value: string)
      modifies this, wizard
      ensures wizard.data == Merge(old(wizard.data), FieldUpdate(field, value))
      ensures wizard.currentStep == old(wizard.currentStep)
      ensures errors == ClearError(old(errors), FieldKey(field))
    {
      wizard.UpdateOnboardingData(FieldUpdate(field, value));
      var key := FieldKey(field);
      if key in errors && errors[key] != "" {
        errors := errors[key := ""];
      }
    }

    /** Checks every field, records all the errors found, and passes exactly when there are none. */
    method ValidateForm(data: OnboardingData) returns (ok: bool)
      modifies this
      ensures errors == AccountErrors(data)
      ensures ok <==> errors == map[]
    {
      var newErrors: map<string, string> := map[];
      if Trim(data.firstName) == "" {
        newErrors := newErrors["firstName" := FirstNameRequired];
      }
      ghost var e1 := newErrors;
      if Trim(data.lastName) == "" {
        newErrors := newErrors["lastName" := LastNameRequired];
      }
      assert newErrors == if Trim(data.lastName) == "" then e1["lastName" := LastNameRequired] else e1;
      ghost var e2 := newErrors;
      var emailError := EmailError(data.email);
      if emailError.Some? {
        newErrors := newErrors["email" := emailError.value];
      }
      assert newErrors == if emailError.Some? then e2["email" := emailError.value] else e2;
      ghost var e3 := newErrors;
      if Trim(data.company) == "" {
        newErrors := newErrors["company" := CompanyRequired];
      }
      assert newErrors == if Trim(data.company) == "" then e3["company" := CompanyRequired] else e3;
      ghost var e4 := newErrors;
      if data.role == "" {
        newErrors := newErrors["role" := RoleRequired];
      }
      assert newErrors == if data.role == "" then e4["role" := RoleRequired] else e4;
      errors := newErrors;
      ok := newErrors == map[];
    }

    /** Advances the wizard only when the form passes. */
    method HandleNext(wizard: OnboardingWizard)
      modifies this, wizard
      ensures errors == AccountErrors(old(wizard.data))
      ensures wizard.data == old(wizard.data)
      ensures wizard.currentStep == if errors == map[] then Next(old(wizard.currentStep)) else old(wizard.currentStep)
    {
      var ok := ValidateForm(wizard.data);
      if ok {
        wizard.NextStep();
      }
    }
  }
}
