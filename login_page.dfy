/** `app/login/page.tsx`: the sign-in form's validation, field edits, the submit flow through
    the auth provider, and the gate that decides whether the form is shown at all. */
module LoginPage {
  import opened Wrappers
  import opened Js
  import opened Types
  import opened Http
  import AuthProvider

  datatype Field = Username | Password

  datatype LoginForm = LoginForm(username: string, password: string)

  const EMPTY_FORM: LoginForm := LoginForm("", "")

  const USERNAME_REQUIRED: string := "Username is required"
  const PASSWORD_REQUIRED: string := "Password is required"
  const SIGNIN_FAILED: string := "Invalid credentials. Please try again."
  const AFTER_SIGNIN: string := "/dashboard"

  function Get(f: LoginForm, k: Field): string {
    match k
    case Username => f.username
    case Password => f.password
  }

  /** `{ ...prev, [field]: value }` */
  function WithField(f: LoginForm, k: Field, v: string): (r: LoginForm)
    ensures Get(r, k) == v
    ensures forall j :: j != k ==> Get(r, j) == Get(f, j)
  {
    match k
    case Username => f.(username := v)
    case Password => f.(password := v)
  }

  /** The `newErrors` record `validateForm` builds. The two checks are independent: a blank
      username and an empty password are each reported, and a password of spaces passes. */
  function FormErrors(f: LoginForm): (m: map<Field, string>)
    ensures Username in m <==> IsBlank(f.username)
    ensures Password in m <==> f.password == ""
    ensures Username in m ==> m[Username] == USERNAME_REQUIRED
    ensures Password in m ==> m[Password] == PASSWORD_REQUIRED
  {
    var u: map<Field, string> := if IsBlank(f.username) then map[Username := USERNAME_REQUIRED] else map[];
    if f.password == "" then u[Password := PASSWORD_REQUIRED] else u
  }

  /** The form validates exactly when the username has a non-space character and the
      password is not empty. */
  lemma ValidIffBothPresent(f: LoginForm)
    ensures FormErrors(f) == map[] <==> !IsBlank(f.username) && f.password != ""
  {
    if FormErrors(f) == map[] {
      assert Username !in FormErrors(f) && Password !in FormErrors(f);
    }
  }

  /** A username of spaces is refused even with a password; a password of spaces is not. */
  lemma BlankUsernameOnly()
    ensures FormErrors(LoginForm("  ", "secret")) == map[Username := USERNAME_REQUIRED]
    ensures FormErrors(LoginForm("ann", " ")) == map[]
  {
    assert "  "[1..] == " " && " "[1..] == "";
    assert !IsSpace('a');
    ValidIffBothPresent(LoginForm("ann", " "));
  }

  /** The outcome of a submit. */
  datatype SubmitOutcome =
    | NotSent                   // validation failed; `login` is not called
    | SignedIn                  // the welcome notice, then navigation to `AFTER_SIGNIN`
    | Rejected(message: Message)  // the "Sign In Failed" notice

  /** The page's gate as written: the spinner is shown `if (isLoading || !user)`, so the form
      appears only once a user is signed in. */
  predicate ShowsFormAsWritten(isLoading: bool, user: Option<User>): (r: bool)
    ensures r ==> !isLoading && user.Some?
  {
    !(isLoading || user.None?)
  }

  /** The page's effect sends a signed-in user on to the dashboard. */
  predicate Redirects(user: Option<User>) {
    user.Some?
  }

  /** As written, no visitor is ever both shown the form and left on the page: a signed-out
      visitor sees the spinner for good, a signed-in one is sent away. */
  lemma FormNeverUsable(isLoading: bool, user: Option<User>)
    ensures ShowsFormAsWritten(isLoading, user) ==> Redirects(user)
    ensures !ShowsFormAsWritten(false, None)
  {
  }

  /** The gate as intended: the spinner while the mount check runs or while a signed-in user
      is being redirected, and the form otherwise. */
  predicate ShowsForm(isLoading: bool, user: Option<User>): (r: bool)
    ensures r ==> !isLoading && user.None?
  {
    !(isLoading || user.Some?)
  }

  /** With the intended gate, a signed-out visitor sees the form once the mount check is
      over, and whoever sees it stays on the page. */
  lemma FormShownToSignedOutVisitor(isLoading: bool, user: Option<User>)
    ensures ShowsForm(isLoading, user) <==> !isLoading && user.None?
    ensures ShowsForm(isLoading, user) ==> !Redirects(user)
  {
  }

  class LoginPage {
    var form: LoginForm
    var errors: map<Field, string>
    var isLoading: bool

    constructor ()
      ensures form == EMPTY_FORM && errors == map[] && !isLoading
    {
      form := EMPTY_FORM;
      errors := map[];
      isLoading := false;
    }

    /** `validateForm()` */
    method ValidateForm() returns (valid: bool)
      modifies this`errors
      ensures errors == FormErrors(form)
      ensures valid <==> errors == map[]
    {
      var newErrors: map<Field, string> := map[];
      if IsBlank(form.username) {
        newErrors := newErrors[Username := USERNAME_REQUIRED];
      }
      if form.password == "" {
        newErrors := newErrors[Password := PASSWORD_REQUIRED];
      }
      errors := newErrors;
      valid := |newErrors.Keys| == 0;
      if !valid {
        assert newErrors != map[];
      }
    }

    /** `handleInputChange(field)` with the new value: set the field, and blank its error if
        it had a non-empty one. */
    method HandleInputChange(field: Field, value: string)
      modifies this`form, this`errors
      ensures form == WithField(old(form), field, value)
      ensures field in old(errors) && old(errors)[field] != "" ==> errors == old(errors)[field := ""]
      ensures !(field in old(errors) && old(errors)[field] != "") ==> errors == old(errors)
    {
      form := WithField(form, field, value);
      if field in errors && errors[field] != "" {
        errors := errors[field := ""];
      }
    }

    /** `handleSubmit`, with `reply` the outcome of `POST /auth/login` should it be sent. */
    method HandleSubmit(auth: AuthProvider.AuthProvider, reply: Result<AuthProvider.LoginReply, Thrown>)
      returns (outcome: SubmitOutcome)
      modifies this`errors, this`isLoading, auth`user
      ensures errors == FormErrors(form)
      ensures outcome == NotSent <==> FormErrors(form) != map[]
      ensures outcome == NotSent ==> isLoading == old(isLoading) && auth.user == old(auth.user)
      ensures outcome != NotSent ==> !isLoading
      ensures outcome == SignedIn <==>
                FormErrors(form) == map[] && (reply.Ok? || AuthProvider.IsBackendDown(reply.error))
      ensures outcome == SignedIn ==>
                auth.user == Some(if reply.Ok? then reply.value.user.GetOr(NamedUser(form.username))
                                  else NamedUser(form.username))
      ensures outcome.Rejected? ==> auth.user == old(auth.user)
                                    && outcome.message == ResponseMessageOr(reply.error, SIGNIN_FAILED)
    {
      var valid := ValidateForm();
      if !valid {
        return NotSent;
      }
      isLoading := true;
      var rethrown := auth.Login(form.username, reply);
      match rethrown {
        case None => outcome := SignedIn;
        case Some(error) => outcome := Rejected(ResponseMessageOr(error, SIGNIN_FAILED));
      }
      isLoading := false;
    }
  }
}
