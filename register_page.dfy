/** `app/register/page.tsx`: the sign-up form's validation, the password-strength meter,
    field edits and the submit flow through the auth provider. Lengths are JavaScript
    `.length`, in UTF-16 code units, and are measured on the text as typed. */
module RegisterPage {
  import opened Wrappers
  import opened Js
  import opened Http
  import Seqs
  import AuthProvider

  datatype Field = Username | Email | Password | ConfirmPassword

  datatype RegisterForm = RegisterForm(username: string, email: string, password: string, confirmPassword: string)

  const EMPTY_FORM: RegisterForm := RegisterForm("", "", "", "")

  function Get(f: RegisterForm, k: Field): string {
    match k
    case Username => f.username
    case Email => f.email
    case Password => f.password
    case ConfirmPassword => f.confirmPassword
  }

  /** `{ ...prev, [field]: value }` */
  function WithField(f: RegisterForm, k: Field, v: string): (r: RegisterForm)
    ensures Get(r, k) == v
    ensures forall j :: j != k ==> Get(r, j) == Get(f, j)
  {
    match k
    case Username => f.(username := v)
    case Email => f.(email := v)
    case Password => f.(password := v)
    case ConfirmPassword => f.(confirmPassword := v)
  }

  const USERNAME_REQUIRED: string := "Username is required"
  const USERNAME_TOO_SHORT: string := "Username must be at least 3 characters"
  const USERNAME_TOO_LONG: string := "Username must be less than 50 characters"
  const EMAIL_REQUIRED: string := "Valid email is required"
  const EMAIL_INVALID: string := "Please enter a valid email address"
  const PASSWORD_REQUIRED: string := "Password is required"
  const PASSWORD_TOO_SHORT: string := "Password must be at least 8 characters"
  const CONFIRM_REQUIRED: string := "Please confirm your password"
  const CONFIRM_MISMATCH: string := "Passwords do not match"
  const SIGNUP_FAILED: string := "Failed to create account. Please try again."

  /** The username rule: required, then at least 3, then at most 50 code units. */
  function UsernameError(u: string): (r: Option<string>)
    ensures r.None? <==> !IsBlank(u) && 3 <= Utf16Length(u) <= 50
    ensures IsBlank(u) ==> r == Some(USERNAME_REQUIRED)
    ensures !IsBlank(u) && Utf16Length(u) < 3 ==> r == Some(USERNAME_TOO_SHORT)
    ensures !IsBlank(u) && Utf16Length(u) > 50 ==> r == Some(USERNAME_TOO_LONG)
  {
    if IsBlank(u) then Some(USERNAME_REQUIRED)
    else if Utf16Length(u) < 3 then Some(USERNAME_TOO_SHORT)
    else if Utf16Length(u) > 50 then Some(USERNAME_TOO_LONG)
    else None
  }

  /** No whitespace (the `\s` class, the same set `trim` removes) and no `@`. */
  predicate NoSpaceOrAt(s: string) {
    forall i :: 0 <= i < |s| ==> !IsSpace(s[i]) && s[i] != '@'
  }

  /** The same condition, checked one character at a time. */
  predicate Plain(s: string) {
    s == [] || (!IsSpace(s[0]) && s[0] != '@' && Plain(s[1..]))
  }

  predicate HasChar(s: string, c: char) {
    s != [] && (s[0] == c || HasChar(s[1..], c))
  }

  predicate IsAt(c: char) { c == '@' }

  /** A domain that `[^\s@]+\.[^\s@]+` matches: no whitespace or `@`, and a `.` that is
      neither its first nor its last character. */
  predicate DomainShape(d: string) {
    Plain(d) && |d| >= 3 && HasChar(d[1..|d| - 1], '.')
  }

  /** What `/^[^\s@]+@[^\s@]+\.[^\s@]+$/.test(email)` accepts: a non-empty local part up
      to the first `@`, and a domain after it. */
  predicate EmailShape(e: string) {
    match Seqs.FindIndex(e, IsAt)
    case None => false
    case Some(i) => 0 < i && Plain(e[..i]) && DomainShape(e[i + 1..])
  }

  /** The pattern written out: one `@` splitting the address into a non-empty local part and
      a domain, neither holding whitespace or another `@`, with a `.` in the domain that has
      text on both sides. */
  ghost predicate EmailPattern(e: string) {
    exists i :: 0 < i < |e| && e[i] == '@' && NoSpaceOrAt(e[..i]) && NoSpaceOrAt(e[i + 1..])
                && exists j :: i + 1 < j < |e| - 1 && e[j] == '.'
  }

  lemma {:induction false} PlainIff(s: string)
    ensures Plain(s) <==> NoSpaceOrAt(s)
  {
    if s != [] {
      PlainIff(s[1..]);
      if NoSpaceOrAt(s) {
        assert forall i :: 0 <= i < |s[1..]| ==> s[1..][i] == s[i + 1];
      }
      if Plain(s) {
        forall i | 0 <= i < |s| ensures !IsSpace(s[i]) && s[i] != '@' {
          if i > 0 { assert s[i] == s[1..][i - 1]; }
        }
      }
    }
  }

  lemma {:induction false} HasCharIff(s: string, c: char)
    ensures HasChar(s, c) <==> exists j :: 0 <= j < |s| && s[j] == c
  {
    if s != [] {
      HasCharIff(s[1..], c);
      if HasChar(s[1..], c) {
        var j :| 0 <= j < |s[1..]| && s[1..][j] == c;
        assert s[j + 1] == c;
      }
      if !HasChar(s, c) {
        forall j | 0 <= j < |s| ensures s[j] != c {
          if j > 0 { assert s[j] == s[1..][j - 1]; }
        }
      }
    }
  }

  /** An address the check accepts is one the pattern describes. */
  lemma ShapeGivesPattern(e: string)
    requires EmailShape(e)
    ensures EmailPattern(e)
  {
    var i := Seqs.FindIndex(e, IsAt).value;
    var d := e[i + 1..];
    PlainIff(e[..i]);
    PlainIff(d);
    HasCharIff(d[1..|d| - 1], '.');
    var k :| 0 <= k < |d| - 2 && d[1..|d| - 1][k] == '.';
    assert e[i + 2 + k] == '.';
  }

  /** An `@` with no `@` before it is the one the check finds. */
  lemma FirstAtIndex(e: string, i: nat)
    requires i < |e| && e[i] == '@' && NoSpaceOrAt(e[..i])
    ensures Seqs.FindIndex(e, IsAt) == Some(i)
  {
    forall k | 0 <= k < i ensures !IsAt(e[k]) {
      assert e[k] == e[..i][k];
    }
    Seqs.FindIndexAt(e, IsAt, i);
  }

  /** An address the pattern describes is one the check accepts. */
  lemma PatternGivesShape(e: string)
    requires EmailPattern(e)
    ensures EmailShape(e)
  {
    var i :| 0 < i < |e| && e[i] == '@' && NoSpaceOrAt(e[..i]) && NoSpaceOrAt(e[i + 1..])
              && exists j :: i + 1 < j < |e| - 1 && e[j] == '.';
    var j :| i + 1 < j < |e| - 1 && e[j] == '.';
    FirstAtIndex(e, i);
    PlainIff(e[..i]);
    var d := e[i + 1..];
    assert d[j - i - 1] == '.';
    DomainWithInnerDot(d, j - i - 1);
  }

  /** A domain without whitespace or `@` and with a `.` strictly inside it has the domain shape. */
  lemma DomainWithInnerDot(d: string, k: nat)
    requires NoSpaceOrAt(d) && 0 < k < |d| - 1 && d[k] == '.'
    ensures DomainShape(d)
  {
    PlainIff(d);
    assert d[1..|d| - 1][k - 1] == '.';
    HasCharIff(d[1..|d| - 1], '.');
  }

  /** The address check accepts exactly the addresses the pattern describes. */
  lemma EmailShapeIsPattern(e: string)
    ensures EmailShape(e) <==> EmailPattern(e)
  {
    if EmailShape(e) { ShapeGivesPattern(e); }
    if EmailPattern(e) { PatternGivesShape(e); }
  }

  lemma EmailExampleAccepted()
    ensures EmailShape("a@b.c")
  {
    Seqs.FindIndexAt("a@b.c", IsAt, 1);
    assert "a@b.c"[..1] == "a" && "a@b.c"[2..] == "b.c";
    assert "b.c"[1..2] == ".";
  }

  lemma EmailExamplesRefused()
    ensures !EmailShape("a@b")
    ensures !EmailShape("@b.c")
  {
    Seqs.FindIndexAt("a@b", IsAt, 1);
    assert "a@b"[2..] == "b";
    Seqs.FindIndexAt("@b.c", IsAt, 0);
  }

  /** The email rule: required, then the address shape. */
  function EmailError(e: string): (r: Option<string>)
    ensures r.None? <==> !IsBlank(e) && EmailShape(e)
    ensures IsBlank(e) ==> r == Some(EMAIL_REQUIRED)
    ensures !IsBlank(e) && !EmailShape(e) ==> r == Some(EMAIL_INVALID)
  {
    if IsBlank(e) then Some(EMAIL_REQUIRED)
    else if !EmailShape(e) then Some(EMAIL_INVALID)
    else None
  }

  /** The password rule: present, then at least 8 code units; a password of spaces passes. */
  function PasswordError(p: string): (r: Option<string>)
    ensures r.None? <==> Utf16Length(p) >= 8
    ensures p == "" ==> r == Some(PASSWORD_REQUIRED)
    ensures p != "" && Utf16Length(p) < 8 ==> r == Some(PASSWORD_TOO_SHORT)
  {
    if p == "" then Some(PASSWORD_REQUIRED)
    else if Utf16Length(p) < 8 then Some(PASSWORD_TOO_SHORT)
    else None
  }

  /** The confirmation rule: present, then equal to the password. */
  function ConfirmError(p: string, c: string): (r: Option<string>)
    ensures r.None? <==> c != "" && c == p
    ensures c == "" ==> r == Some(CONFIRM_REQUIRED)
    ensures c != "" && c != p ==> r == Some(CONFIRM_MISMATCH)
  {
    if c == "" then Some(CONFIRM_REQUIRED)
    else if p != c then Some(CONFIRM_MISMATCH)
    else None
  }

  function Pick(k: Field, u: Option<string>, e: Option<string>, p: Option<string>, c: Option<string>): Option<string> {
    match k
    case Username => u
    case Email => e
    case Password => p
    case ConfirmPassword => c
  }

  /** The message of one field's rule, if it fails. */
  function FieldError(f: RegisterForm, k: Field): Option<string> {
    Pick(k, UsernameError(f.username), EmailError(f.email), PasswordError(f.password),
         ConfirmError(f.password, f.confirmPassword))
  }

  /** `m` with `k` set to the message, when there is one. */
  function Put(m: map<Field, string>, k: Field, message: Option<string>): (r: map<Field, string>)
    ensures forall j :: j in r <==> (j == k && message.Some?) || j in m
    ensures forall j :: j in r ==> r[j] == if j == k && message.Some? then message.value else m[j]
  {
    if message.Some? then m[k := message.value] else m
  }

  /** The record built from the four fields' messages, in the order they are checked. */
  function Collect(u: Option<string>, e: Option<string>, p: Option<string>, c: Option<string>): (m: map<Field, string>)
    ensures (Username in m <==> u.Some?) && (u.Some? ==> m[Username] == u.value)
    ensures (Email in m <==> e.Some?) && (e.Some? ==> m[Email] == e.value)
    ensures (Password in m <==> p.Some?) && (p.Some? ==> m[Password] == p.value)
    ensures (ConfirmPassword in m <==> c.Some?) && (c.Some? ==> m[ConfirmPassword] == c.value)
  {
    Put(Put(Put(Put(map[], Username, u), Email, e), Password, p), ConfirmPassword, c)
  }

  /** The `newErrors` record `validateForm` builds: one message for each failing field. */
  function FormErrors(f: RegisterForm): (m: map<Field, string>)
    ensures forall k :: k in m <==> FieldError(f, k).Some?
    ensures forall k :: k in m ==> m[k] == FieldError(f, k).value
  {
    Collect(UsernameError(f.username), EmailError(f.email), PasswordError(f.password),
            ConfirmError(f.password, f.confirmPassword))
  }

  /** The form validates exactly when every field rule is met. */
  lemma ValidIffAllRulesMet(f: RegisterForm)
    ensures FormErrors(f) == map[] <==>
      && !IsBlank(f.username) && 3 <= Utf16Length(f.username) <= 50
      && !IsBlank(f.email) && EmailShape(f.email)
      && Utf16Length(f.password) >= 8
      && f.confirmPassword == f.password
  {
    if FormErrors(f) == map[] {
      assert Username !in FormErrors(f) && Email !in FormErrors(f);
      assert Password !in FormErrors(f) && ConfirmPassword !in FormErrors(f);
    }
    if f.confirmPassword == f.password && Utf16Length(f.password) >= 8 {
      Utf16LengthPositive(f.password);
    }
  }

  lemma Utf16LengthPositive(s: string)
    requires Utf16Length(s) > 0
    ensures s != ""
  {
  }

  /** The password-strength criteria, in the order they are checked. */
  datatype Criterion = LongEnough | HasUpper | HasLower | HasDigit | HasSymbol

  predicate IsUpper(c: char) { 'A' <= c <= 'Z' }
  predicate IsLower(c: char) { 'a' <= c <= 'z' }

  predicate HasUpperChar(p: string) { exists i :: 0 <= i < |p| && IsUpper(p[i]) }
  predicate HasLowerChar(p: string) { exists i :: 0 <= i < |p| && IsLower(p[i]) }
  predicate HasDigitChar(p: string) { exists i :: 0 <= i < |p| && IsDecimalDigit(p[i]) }

  /** `/[^A-Za-z0-9]/` */
  predicate HasSymbolChar(p: string) {
    exists i :: 0 <= i < |p| && !IsUpper(p[i]) && !IsLower(p[i]) && !IsDecimalDigit(p[i])
  }

  predicate Holds(k: Criterion, p: string) {
    match k
    case LongEnough => Utf16Length(p) >= 8
    case HasUpper => HasUpperChar(p)
    case HasLower => HasLowerChar(p)
    case HasDigit => HasDigitChar(p)
    case HasSymbol => HasSymbolChar(p)
  }

  function IfHolds(k: Criterion, p: string): seq<Criterion> {
    if Holds(k, p) then [k] else []
  }

  /** The criteria a password meets, in checking order, each once. */
  function Met(p: string): (r: seq<Criterion>)
    ensures forall i :: 0 <= i < |r| ==> Holds(r[i], p)
    ensures forall k :: Holds(k, p) <==> k in r
    ensures forall i, j :: 0 <= i < j < |r| ==> r[i] != r[j]
    ensures |r| <= 5
  {
    IfHolds(LongEnough, p) + IfHolds(HasUpper, p) + IfHolds(HasLower, p) + IfHolds(HasDigit, p)
      + IfHolds(HasSymbol, p)
  }

  /** The strength label lines: each one is shown under its own condition. */
  datatype Label = Weak | Good | Strong

  function Labels(strength: int): (r: seq<Label>)
    ensures |r| == 1
    ensures r[0] == Weak <==> strength <= 2
    ensures r[0] == Good <==> strength == 3
    ensures r[0] == Strong <==> strength >= 4
  {
    (if strength <= 2 then [Weak] else []) + (if strength == 3 then [Good] else [])
      + (if strength >= 4 then [Strong] else [])
  }

  /** The outcome of a submit. */
  datatype SubmitOutcome =
    | NotSent                   // validation failed; `register` is not called
    | SignedUp                  // success notice, then navigation to "/login"
    | Rejected(message: Message)  // the "Registration Failed" notice

  /** The username branch of `validateForm`. */
  method CheckUsername(newErrors: map<Field, string>, username: string) returns (r: map<Field, string>)
    ensures r == Put(newErrors, Username, UsernameError(username))
  {
    r := newErrors;
    if IsBlank(username) {
      r := r[Username := USERNAME_REQUIRED];
    } else if Utf16Length(username) < 3 {
      r := r[Username := USERNAME_TOO_SHORT];
    } else if Utf16Length(username) > 50 {
      r := r[Username := USERNAME_TOO_LONG];
    }
  }

  /** The email branch of `validateForm`. */
  method CheckEmail(newErrors: map<Field, string>, email: string) returns (r: map<Field, string>)
    ensures r == Put(newErrors, Email, EmailError(email))
  {
    r := newErrors;
    if IsBlank(email) {
      r := r[Email := EMAIL_REQUIRED];
    } else if !EmailShape(email) {
      r := r[Email := EMAIL_INVALID];
    }
  }

  /** The password branch of `validateForm`. */
  method CheckPassword(newErrors: map<Field, string>, password: string) returns (r: map<Field, string>)
    ensures r == Put(newErrors, Password, PasswordError(password))
  {
    r := newErrors;
    if password == "" {
      r := r[Password := PASSWORD_REQUIRED];
    } else if Utf16Length(password) < 8 {
      r := r[Password := PASSWORD_TOO_SHORT];
    }
  }

  /** The confirmation branch of `validateForm`. */
  method CheckConfirm(newErrors: map<Field, string>, password: string, confirmPassword: string) returns (r: map<Field, string>)
    ensures r == Put(newErrors, ConfirmPassword, ConfirmError(password, confirmPassword))
  {
    r := newErrors;
    if confirmPassword == "" {
      r := r[ConfirmPassword := CONFIRM_REQUIRED];
    } else if password != confirmPassword {
      r := r[ConfirmPassword := CONFIRM_MISMATCH];
    }
  }

  class RegisterPage {
    var form: RegisterForm
    var errors: map<Field, string>
    var isLoading: bool

    constructor ()
      ensures form == EMPTY_FORM && errors == map[] && !isLoading
    {
      form := EMPTY_FORM;
      errors := map[];
      isLoading := false;
    }

    /** `validateForm()` */
    method ValidateForm() returns (valid: bool)
      modifies this`errors
      ensures errors == FormErrors(form)
      ensures valid <==> errors == map[]
    {
      var newErrors: map<Field, string> := map[];
      newErrors := CheckUsername(newErrors, form.username);
      newErrors := CheckEmail(newErrors, form.email);
      newErrors := CheckPassword(newErrors, form.password);
      newErrors := CheckConfirm(newErrors, form.password, form.confirmPassword);
      errors := newErrors;
      valid := |newErrors.Keys| == 0;
      if !valid {
        assert newErrors != map[];
      }
    }

    /** `getPasswordStrength()`: one point per criterion met. */
    method PasswordStrength() returns (strength: nat)
      ensures strength == |Met(form.password)|
      ensures strength <= 5
    {
      var password := form.password;
      strength := 0;
      if Utf16Length(password) >= 8 { strength := strength + 1; }
      if HasUpperChar(password) { strength := strength + 1; }
      if HasLowerChar(password) { strength := strength + 1; }
      if HasDigitChar(password) { strength := strength + 1; }
      if HasSymbolChar(password) { strength := strength + 1; }
    }

    /** `handleInputChange(field)` with the new value: set the field, and blank its error if
        it had a non-empty one. */
    method HandleInputChange(field: Field, value: string)
      modifies this`form, this`errors
      ensures form == WithField(old(form), field, value)
      ensures field in old(errors) && old(errors)[field] != "" ==> errors == old(errors)[field := ""]
      ensures !(field in old(errors) && old(errors)[field] != "") ==> errors == old(errors)
    {
      form := WithField(form, field, value);
      if field in errors && errors[field] != "" {
        errors := errors[field := ""];
      }
    }

    /** `handleSubmit`, with `reply` the outcome of `POST /auth/register` should it be sent. */
    method HandleSubmit(auth: AuthProvider.AuthProvider, reply: Result<(), Thrown>) returns (outcome: SubmitOutcome)
      modifies this`errors, this`isLoading
      ensures errors == FormErrors(form)
      ensures outcome == NotSent <==> FormErrors(form) != map[]
      ensures outcome == NotSent ==> isLoading == old(isLoading)
      ensures outcome != NotSent ==> !isLoading
      ensures outcome == SignedUp <==> FormErrors(form) == map[] && (reply.Ok? || AuthProvider.IsBackendDown(reply.error))
      ensures outcome.Rejected? ==> outcome.message == ResponseMessageOr(reply.error, SIGNUP_FAILED)
    {
      var valid := ValidateForm();
      if !valid {
        return NotSent;
      }
      isLoading := true;
      var rethrown := auth.Register(reply);
      match rethrown {
        case None => outcome := SignedUp;
        case Some(error) => outcome := Rejected(ResponseMessageOr(error, SIGNUP_FAILED));
      }
      isLoading := false;
    }
  }

  /** The meter counts each criterion once, so a password meeting all of them scores 5 and
      the label is "Strong". */
  lemma FullStrength(p: string)
    requires forall k :: Holds(k, p)
    ensures |Met(p)| == 5 && Labels(|Met(p)|) == [Strong]
  {
    assert Holds(LongEnough, p) && Holds(HasUpper, p) && Holds(HasLower, p) && Holds(HasDigit, p) && Holds(HasSymbol, p);
  }
}
