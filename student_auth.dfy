/**
 * The student login / registration page: the five-field form, the mode
 * switch, and `handleSubmit`, which validates a registration (full name and
 * student id must be non-blank after trimming) before any remote call, then
 * signs in or signs up through the provider, reports the outcome, navigates
 * to the portal on success, and always ends with `loading` false.
 */
module StudentAuthPage {
  import opened Wrappers
  import opened Strings
  import opened AuthHook

  datatype AuthForm = AuthForm(email: string, password: string, fullName: string, studentId: string, phone: string)

  /** The `name` attributes of the form's inputs. */
  datatype AuthField = Email | Password | FullName | StudentId | Phone

  /** The toast a submission ends with. */
  datatype Toast =
    | LoginFailed(message: string)
    | LoggedIn
    | MissingFullName
    | MissingStudentId
    | RegistrationFailed(message: string)
    | Registered
    | UnexpectedError

  const EmptyForm: AuthForm := AuthForm("", "", "", "", "")

  const PortalPath: string := "/students"

  /** `{ ...formData, [e.target.name]: e.target.value }`. */
  function WithField(form: AuthForm, field: AuthField, value: string): AuthForm
  {
    match field
    case Email => form.(email := value)
    case Password => form.(password := value)
    case FullName => form.(fullName := value)
    case StudentId => form.(studentId := value)
    case Phone => form.(phone := value)
  }

  /**
   * The registration checks, in source order: a blank full name is reported
   * first, then a blank student id; email, password and phone are not checked.
   */
  function RegistrationError(form: AuthForm): (r: Option<Toast>)
    ensures r == Some(MissingFullName) <==> IsBlank(form.fullName)
    ensures r == Some(MissingStudentId) <==> !IsBlank(form.fullName) && IsBlank(form.studentId)
    ensures r.None? <==> !IsBlank(form.fullName) && !IsBlank(form.studentId)
  {
    TrimEmptyIffBlank(form.fullName);
    TrimEmptyIffBlank(form.studentId);
    if Trim(form.fullName) == "" then Some(MissingFullName)
    else if Trim(form.studentId) == "" then Some(MissingStudentId)
    else None
  }

  /** The toast after `signIn` settles. */
  function LoginToast(r: Remote<Option<AuthError>>): Toast
  {
    if r.Rejected? then UnexpectedError
    else if r.value.Some? then LoginFailed(r.value.value.message)
    else LoggedIn
  }

  /** The toast after `signUp` settles. */
  function RegistrationToast(r: Remote<Option<AuthError>>): Toast
  {
    if r.Rejected? then UnexpectedError
    else if r.value.Some? then RegistrationFailed(r.value.value.message)
    else Registered
  }

  /** Only one field changes when an input changes. */
  lemma WithFieldChangesOnlyThatField(form: AuthForm, field: AuthField, value: string)
    ensures var f := WithField(form, field, value);
      (if field == Email then f.email == value else f.email == form.email) &&
      (if field == Password then f.password == value else f.password == form.password) &&
      (if field == FullName then f.fullName == value else f.fullName == form.fullName) &&
      (if field == StudentId then f.studentId == value else f.studentId == form.studentId) &&
      (if field == Phone then f.phone == value else f.phone == form.phone)
  {
  }

  /** With both names blank the full-name error wins; the other fields play no part. */
  lemma FullNameCheckedFirst(form: AuthForm)
    requires IsBlank(form.fullName)
    ensures RegistrationError(form) == Some(MissingFullName)
    ensures forall e, p, ph :: RegistrationError(form.(email := e, password := p, phone := ph)) == Some(MissingFullName)
  {
  }

  /** A name of spaces and tabs is rejected: the test is on the trimmed value. */
  lemma WhitespaceNameRejected(form: AuthForm)
    requires form.fullName == " \t "
    ensures RegistrationError(form) == Some(MissingFullName)
  {
  }

  /** The page's state. `loadingLog` records every `setLoading` call, `navigations` every `navigate`. */
  class StudentAuth {
    var isLogin: bool
    var loading: bool
    var loadingLog: seq<bool>
    var formData: AuthForm
    var navigations: seq<string>

    /** Initial state: login mode, not loading, an empty form. */
    constructor ()
      ensures isLogin && !loading && formData == EmptyForm
      ensures loadingLog == [] && navigations == []
    {
      isLogin := true;
      loading := false;
      loadingLog := [];
      formData := EmptyForm;
      navigations := [];
    }

    /** The link that switches between login and registration. */
    method ToggleMode()
      modifies this
      ensures isLogin == !old(isLogin)
      ensures formData == old(formData) && loading == old(loading)
      ensures loadingLog == old(loadingLog) && navigations == old(navigations)
    {
      isLogin := !isLogin;
    }

    /** `handleInputChange`: only the named field takes the new value. */
    method HandleInputChange(field: AuthField, value: string)
      modifies this
      ensures formData == WithField(old(formData), field, value)
      ensures isLogin == old(isLogin) && loading == old(loading)
      ensures loadingLog == old(loadingLog) && navigations == old(navigations)
    {
      formData := WithField(formData, field, value);
    }

    /** `setLoading(value)`: the flag takes the value, and the change is logged. */
    method SetLoading(value: bool)
      modifies this
      ensures loading == value && loadingLog == old(loadingLog) + [value]
      ensures isLogin == old(isLogin) && formData == old(formData) && navigations == old(navigations)
    {
      loading := value;
      loadingLog := loadingLog + [value];
    }

    /**
     * `handleSubmit` against the provider `auth`, with the remote calls
     * settling as given (`origin` is the page origin passed as redirect).
     * Login passes email and password unchecked to `signIn`. Registration
     * with a blank full name or student id calls nothing; otherwise it passes
     * the fields, untrimmed, to `signUp`. Navigation to the portal happens
     * exactly when the call settled with no error. `loading` is set true
     * first and false on every path (twice on the validation returns, whose
     * `finally` runs as well).
     */
    method HandleSubmit(auth: AuthProvider, origin: string,
                        signInReply: Remote<Option<AuthError>>,
                        signUpReply: Remote<SignUpReply>, insertReply: Remote<Option<AuthError>>)
      returns (toast: Toast)
      modifies this, auth
      ensures !loading && isLogin == old(isLogin) && formData == old(formData)
      ensures old(isLogin) ==>
        var (st, r) := SignedIn(old(auth.State()), old(formData).email, old(formData).password, signInReply);
        auth.State() == st && toast == LoginToast(r) &&
        navigations == old(navigations) + (if r == Resolved(None) then [PortalPath] else []) &&
        loadingLog == old(loadingLog) + [true, false]
      ensures !old(isLogin) && RegistrationError(old(formData)).Some? ==>
        toast == RegistrationError(old(formData)).value && auth.State() == old(auth.State()) &&
        navigations == old(navigations) && loadingLog == old(loadingLog) + [true, false, false]
      ensures !old(isLogin) && RegistrationError(old(formData)).None? ==>
        var f := old(formData);
        var (st, r) := SignedUp(old(auth.State()), f.email, f.password, f.fullName, f.studentId,
                                Some(f.phone), origin, signUpReply, insertReply);
        auth.State() == st && toast == RegistrationToast(r) &&
        navigations == old(navigations) + (if r == Resolved(None) then [PortalPath] else []) &&
        loadingLog == old(loadingLog) + [true, false]
    {
      SetLoading(true);
      if isLogin {
        var r := auth.SignIn(formData.email, formData.password, signInReply);
        if r.Rejected? {
          toast := UnexpectedError;
        } else if r.value.Some? {
          toast := LoginFailed(r.value.value.message);
        } else {
          toast := LoggedIn;
          navigations := navigations + [PortalPath];
        }
      } else {
        TrimEmptyIffBlank(formData.fullName);
        TrimEmptyIffBlank(formData.studentId);
        if Trim(formData.fullName) == "" {
          toast := MissingFullName;
          SetLoading(false);
          SetLoading(false);
          return;
        }
        if Trim(formData.studentId) == "" {
          toast := MissingStudentId;
          SetLoading(false);
          SetLoading(false);
          return;
        }
        var r := auth.SignUp(formData.email, formData.password, formData.fullName, formData.studentId,
                             Some(formData.phone), origin, signUpReply, insertReply);
        if r.Rejected? {
          toast := UnexpectedError;
        } else if r.value.Some? {
          toast := RegistrationFailed(r.value.value.message);
        } else {
          toast := Registered;
          navigations := navigations + [PortalPath];
        }
      }
      SetLoading(false);
    }
  }
}
