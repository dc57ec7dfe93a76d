/** The registration page (src/pages/Register.js): the password checks run
    on submit, the call to `register`, and where the new user is sent. The
    `register` function of the authentication context is not part of this
    model; its outcome is an input of the submit handler. */
module Register {
  import opened Wrappers
  import opened Text
  import opened Session

  datatype RegisterForm = RegisterForm(name: string, email: string, password: string, confirmPassword: string)

  const EmptyRegisterForm := RegisterForm("", "", "", "")

  datatype RegisterField = Name | Email | Password | ConfirmPassword

  /** `{ ...formData, [name]: value }`. */
  function WithField(form: RegisterForm, fld: RegisterField, v: string): RegisterForm {
    match fld
    case Name => form.(name := v)
    case Email => form.(email := v)
    case Password => form.(password := v)
    case ConfirmPassword => form.(confirmPassword := v)
  }

  const MismatchMessage := "Passwords do not match"
  const TooShortMessage := "Password must be at least 6 characters"
  const MinPasswordLength := 6

  /** The checks in `handleSubmit`, in their order: mismatch first, then
      length, measured as JavaScript measures it (UTF-16 units). */
  function PasswordProblem(form: RegisterForm): (r: Option<string>)
    ensures r == Some(MismatchMessage) <==> form.password != form.confirmPassword
    ensures r == Some(TooShortMessage) <==>
      form.password == form.confirmPassword && Utf16Length(form.password) < MinPasswordLength
    ensures r.None? <==>
      form.password == form.confirmPassword && Utf16Length(form.password) >= MinPasswordLength
  {
    if form.password != form.confirmPassword then Some(MismatchMessage)
    else if Utf16Length(form.password) < MinPasswordLength then Some(TooShortMessage)
    else None
  }

  /** A mismatch is reported even when the password is also too short. */
  lemma MismatchReportedFirst(form: RegisterForm)
    requires form.password != form.confirmPassword
    requires Utf16Length(form.password) < MinPasswordLength
    ensures PasswordProblem(form) == Some(MismatchMessage)
  {
  }

  /** Six characters from the Basic Multilingual Plane are enough; five are
      not. */
  lemma SixIsEnough(password: string)
    requires forall i | 0 <= i < |password| :: password[i] as int <= 0xFFFF
    ensures PasswordProblem(RegisterForm("", "", password, password)).None? <==> |password| >= 6
  {
  }

  /** What `register` resolves to: `{ success: true, user }` or
      `{ success: false, message }`. */
  datatype RegisterResult = Succeeded(user: Option<User>) | Failed(message: string)

  /** `result.user?.role === 'admin' ? '/admin' : '/'`: a missing user goes
      to the home page. */
  function LandingAfter(user: Option<User>): (path: string)
    ensures path == "/admin" <==> user.Some? && user.value.role == "admin"
    ensures path != "/admin" ==> path == "/"
  {
    match user
    case Some(u) => LandingPath(u.role)
    case None => "/"
  }

  datatype Call = Register(name: string, email: string, password: string) | Navigate(path: string)

  /** The calls one submission makes. */
  function SubmitCalls(form: RegisterForm, result: RegisterResult): seq<Call> {
    if PasswordProblem(form).Some? then []
    else
      [Register(form.name, form.email, form.password)]
      + match result
        case Succeeded(user) => [Navigate(LandingAfter(user))]
        case Failed(_) => []
  }

  /** `register` is called exactly when both password checks pass, with the
      typed password and not the confirmation; a navigation happens only
      after a successful registration. */
  lemma RegisterOnlyWhenChecksPass(form: RegisterForm, result: RegisterResult)
    ensures (exists c | c in SubmitCalls(form, result) :: c.Register?) <==> PasswordProblem(form).None?
    ensures forall c | c in SubmitCalls(form, result) && c.Register? ::
      c == Register(form.name, form.email, form.password)
    ensures (exists c | c in SubmitCalls(form, result) :: c.Navigate?) <==>
      PasswordProblem(form).None? && result.Succeeded?
  {
    var calls := SubmitCalls(form, result);
    if PasswordProblem(form).None? {
      assert calls[0].Register?;
      if result.Succeeded? {
        assert calls[1].Navigate?;
      }
    }
  }

  class RegisterPage {
    var form: RegisterForm
    var error: string
    var loading: bool
    var calls: seq<Call>

    constructor()
      ensures form == EmptyRegisterForm && error == "" && !loading && calls == []
    {
      form := EmptyRegisterForm;
      error := "";
      loading := false;
      calls := [];
    }

    /** `handleChange`: stores the typed value and clears the message. */
    method HandleChange(fld: RegisterField, v: string)
      modifies this
      ensures form == WithField(old(form), fld, v) && error == ""
      ensures loading == old(loading) && calls == old(calls)
    {
      form := WithField(form, fld, v);
      error := "";
    }

    /** `handleSubmit`; `result` is what the awaited `register` resolves to
        and is used only when the call is made. */
    method HandleSubmit(result: RegisterResult)
      modifies this
      ensures form == old(form)
      ensures calls == old(calls) + SubmitCalls(old(form), result)
      ensures PasswordProblem(form).Some? ==>
        error == PasswordProblem(form).value && loading == old(loading)
      ensures PasswordProblem(form).None? && result.Succeeded? ==> error == "" && loading
      ensures PasswordProblem(form).None? && result.Failed? ==> error == result.message && !loading
    {
      error := "";
      if form.password != form.confirmPassword {
        error := MismatchMessage;
        return;
      }
      if Utf16Length(form.password) < MinPasswordLength {
        error := TooShortMessage;
        return;
      }
      loading := true;
      calls := calls + [Register(form.name, form.email, form.password)];
      match result
      case Succeeded(user) =>
        calls := calls + [Navigate(LandingAfter(user))];
      case Failed(message) =>
        error := message;
        loading := false;
    }
  }

  /** The effect that runs whenever a user is present: a signed-in visitor
      is sent on, to `/admin` or to `/`. */
  function RedirectSignedIn(user: Option<User>): (r: Option<string>)
    ensures r.Some? <==> user.Some?
    ensures r.Some? ==> r.value == LandingPath(user.value.role)
  {
    match user
    case Some(u) => Some(LandingPath(u.role))
    case None => None
  }
}
