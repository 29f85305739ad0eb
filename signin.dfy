/**
 * The sign-in page: form validation, the demo-credential check on submit,
 * the error text for an authentication error code, and the page to return
 * to after signing in.
 *
 * The query string's values are parameters; a navigation is recorded in
 * `navigations`. The one-second pause before navigating and the Google
 * sign-in button are not modelled.
 */
module SignIn {
  import opened Common
  import opened AccountSetup

  const PasswordRequired: string := "Password is required"
  const InvalidCredentials: string := "Invalid email or password"
  const DefaultCallbackUrl: string := "/"

  const SharedSignInError: string := "There was an error signing in. Please try again."
  const AccountNotLinked: string :=
    "This email is already associated with another account. Please sign in with the original method."
  const CheckEmail: string := "Check your email for a sign-in link."
  const BadCredentials: string := "Invalid credentials. Please check your email and password."
  const GenericError: string := "An error occurred. Please try again."

  /** The accepted demo pairs, compared exactly (case-sensitive, untrimmed). */
  const DemoCredentials: seq<(string, string)> := [
    ("john@techcorp.com", "password123"),
    ("sarah@designstudio.com", "password123"),
    ("michael@startupventures.io", "password123"),
    ("admin@clientportal.com", "admin123")
  ]

  /** The page to go to after signing in: the `callbackUrl` parameter when non-empty, else the home page. */
  function CallbackUrl(param: Option<string>): (r: string)
    ensures param.Some? && param.value != "" ==> r == param.value
    ensures param.None? || param.value == "" ==> r == DefaultCallbackUrl
    ensures r != ""
  {
    if param.Some? && param.value != "" then param.value else DefaultCallbackUrl
  }

  /** The form's errors: the e-mail's, and a required password. */
  function SignInErrors(email: string, password: string): (r: map<string, string>)
    ensures r.Keys <= {"email", "password"}
    ensures ("email" in r <==> EmailError(email).Some?) && ("email" in r ==> r["email"] == EmailError(email).value)
    ensures "password" in r <==> password == ""
    ensures "password" in r ==> r["password"] == PasswordRequired
  {
    var withEmail := if EmailError(email).Some? then map["email" := EmailError(email).value] else map[];
    if password == "" then withEmail["password" := PasswordRequired] else withEmail
  }

  /** The form passes exactly when the e-mail is a well-formed address and a password is given. */
  lemma ValidIffWellFormed(email: string, password: string)
    ensures SignInErrors(email, password) == map[] <==> !Blank(email) && IsEmail(email) && password != ""
  {
    if SignInErrors(email, password) == map[] {
      assert "email" !in SignInErrors(email, password);
    }
  }

  /** The first demo pair equal to the input. */
  function ValidCredentials(email: string, password: string): (r: Option<(string, string)>)
    ensures r.Some? <==> exists i :: 0 <= i < |DemoCredentials| && DemoCredentials[i] == (email, password)
    ensures r.Some? ==> r.value == (email, password)
  {
    Find(Matches(email, password), DemoCredentials)
  }

  /** The test `cred.email === email && cred.password === password`. */
  function Matches(email: string, password: string): ((string, string)) -> bool
  {
    (cred: (string, string)) => cred.0 == email && cred.1 == password
  }

  /** Only the exact pairs are accepted: a changed letter case or surrounding space is refused. */
  lemma CredentialsAreExact()
    ensures ValidCredentials("john@techcorp.com", "password123").Some?
    ensures ValidCredentials("John@techcorp.com", "password123").None?
    ensures ValidCredentials(" john@techcorp.com", "password123").None?
    ensures ValidCredentials("john@techcorp.com", "admin123").None?
  {
    assert ("john@techcorp.com", "password123") == DemoCredentials[0];
    assert "John@techcorp.com" != "john@techcorp.com" by { assert "John@techcorp.com"[0] != "john@techcorp.com"[0]; }
  }

  /** The text shown for an authentication error code; unknown codes get the generic text. */
  function GetErrorMessage(code: string): (r: string)
    ensures (code in {"OAuthSignin", "OAuthCallback", "OAuthCreateAccount", "EmailCreateAccount", "Callback"})
            <==> r == SharedSignInError
    ensures code == "OAuthAccountNotLinked" <==> r == AccountNotLinked
    ensures code == "EmailSignin" <==> r == CheckEmail
    ensures code == "CredentialsSignin" <==> r == BadCredentials
    ensures (code !in {"OAuthSignin", "OAuthCallback", "OAuthCreateAccount", "EmailCreateAccount", "Callback",
                       "OAuthAccountNotLinked", "EmailSignin", "CredentialsSignin"}) <==> r == GenericError
  {
    match code
    case "OAuthSignin" => SharedSignInError
    case "OAuthCallback" => SharedSignInError
    case "OAuthCreateAccount" => SharedSignInError
    case "EmailCreateAccount" => SharedSignInError
    case "Callback" => SharedSignInError
    case "OAuthAccountNotLinked" => AccountNotLinked
    case "EmailSignin" => CheckEmail
    case "CredentialsSignin" => BadCredentials
    case _ => GenericError
  }

  class SignInForm {
    var email: string
    var password: string
    var errors: map<string, string>
    var isLoading: bool
    /** The pages pushed onto the router, oldest first. */
    var navigations: seq<string>

    constructor ()
      ensures email == "" && password == "" && errors == map[] && !isLoading && navigations == []
    {
      email := "";
      password := "";
      errors := map[];
      isLoading := false;
      navigations := [];
    }

    /** Typing into a field stores the value and blanks (does not remove) that field's error if it had one. */
    method HandleInputChange(field: string, value: string)
      requires field in {"email", "password"}
      modifies this
      ensures field == "email" ==> email == value && password == old(password)
      ensures field == "password" ==> password == value && email == old(email)
      ensures errors == if field in old(errors) && old(errors)[field] != "" then old(errors)[field := ""] else old(errors)
      ensures isLoading == old(isLoading) && navigations == old(navigations)
    {
      if field == "email" {
        email := value;
      } else {
        password := value;
      }
      if field in errors && errors[field] != "" {
        errors := errors[field := ""];
      }
    }

    /** Replaces the errors by the current form's and reports whether there are none. */
    method ValidateForm() returns (ok: bool)
      modifies this
      ensures errors == SignInErrors(email, password)
      ensures ok <==> errors == map[]
      ensures email == old(email) && password == old(password)
      ensures isLoading == old(isLoading) && navigations == old(navigations)
    {
      var newErrors: map<string, string> := map[];
      var emailError := EmailError(email);
      if emailError.Some? {
        newErrors := newErrors["email" := emailError.value];
      }
      if password == "" {
        newErrors := newErrors["password" := PasswordRequired];
      }
      errors := newErrors;
      ok := |newErrors| == 0;
    }

    /**
     * Submitting: an invalid form only shows its errors; a valid one goes to
     * `callbackUrl` for a demo pair and otherwise shows only the general error.
     */
    method HandleSubmit(callbackUrl: string)
      modifies this
      ensures email == old(email) && password == old(password)
      ensures SignInErrors(email, password) != map[] ==>
        errors == SignInErrors(email, password) && navigations == old(navigations) && isLoading == old(isLoading)
      ensures SignInErrors(email, password) == map[] ==> !isLoading
      ensures SignInErrors(email, password) == map[] && ValidCredentials(email, password).Some? ==>
        errors == map[] && navigations == old(navigations) + [callbackUrl]
      ensures SignInErrors(email, password) == map[] && ValidCredentials(email, password).None? ==>
        errors == map["general" := InvalidCredentials] && navigations == old(navigations)
    {
      var valid := ValidateForm();
      if !valid {
        return;
      }
      assert errors == map[];
      isLoading := true;
      var validCredentials := ValidCredentials(email, password);
      if validCredentials.Some? {
        navigations := navigations + [callbackUrl];
      } else {
        errors := map["general" := InvalidCredentials];
      }
      isLoading := false;
    }
  }

  /**
   * Every demo pair is well formed, so (by `ValidIffWellFormed`) it passes
   * the form's validation and reaches the credential check.
   */
  lemma DemoCredentialsWellFormed(i: nat)
    requires i < |DemoCredentials|
    ensures !Blank(DemoCredentials[i].0) && IsEmail(DemoCredentials[i].0) && DemoCredentials[i].1 != ""
  {
    if i == 0 {
      DemoAddress0();
    } else if i == 1 {
      DemoAddress1();
    } else if i == 2 {
      DemoAddress2();
    } else {
      DemoAddress3();
    }
  }

  lemma DemoAddress0()
    ensures !Blank(DemoCredentials[0].0) && IsEmail(DemoCredentials[0].0)
  {
    AddressAt(DemoCredentials[0].0, 4, 8);
  }

  lemma DemoAddress1()
    ensures !Blank(DemoCredentials[1].0) && IsEmail(DemoCredentials[1].0)
  {
    AddressAt(DemoCredentials[1].0, 5, 12);
  }

  lemma DemoAddress2()
    ensures !Blank(DemoCredentials[2].0) && IsEmail(DemoCredentials[2].0)
  {
    AddressAt(DemoCredentials[2].0, 7, 15);
  }

  lemma DemoAddress3()
    ensures !Blank(DemoCredentials[3].0) && IsEmail(DemoCredentials[3].0)
  {
    AddressAt(DemoCredentials[3].0, 5, 12);
  }

  /** An address whose only '@' is at `at` and whose domain has a '.' at `dot` matches the pattern. */
  lemma AddressAt(e: string, at: nat, dot: nat)
    requires 0 < at < |e| && e[at] == '@' && !IsSpace(e[0])
    requires PlainChars(e[..at]) && PlainChars(e[at + 1..])
    requires 0 < dot < |e[at + 1..]| - 1 && e[at + 1..][dot] == '.'
    ensures !Blank(e) && IsEmail(e)
  {
  }
}
