/**
 * The sign-in form: it checks that both fields are filled in, sends the
 * credentials, and then either switches to the OTP form (first sign-in of
 * a new user), stores the session in local storage and schedules the move
 * to the home page, or shows an error toast chosen by the failure's status.
 */
module SignIn {
  import opened Wrappers
  import opened Strings
  import opened LoginApi

  const UserIdMissing := "Please enter your user ID or email"
  const PasswordMissing := "Please enter your password"
  const InvalidCredentials := "Invalid credentials. Please try again."
  const UserNotFound := "User not found. Please check your credentials."
  const Unauthorized := "Unauthorized. Please check your credentials."
  const SignInFailed := "An error occurred during sign in"
  const FailedToSignIn := "Failed to sign in"
  /** The success texts as they are stored in the source file, whose emoji was saved in a wrong encoding. */
  const LoginSuccessful := "Login successful! \U{00F0}\U{0178}\U{017D}\U{2030}"
  const PasswordSetSuccessfully := "Password set successfully! \U{00F0}\U{0178}\U{017D}\U{2030}"

  /** `validateForm`: the first blank field's message, or `None` when both are filled in. */
  function ValidateSignIn(userId: string, password: string): (r: Option<string>)
    ensures r.None? <==> !IsBlank(userId) && !IsBlank(password)
  {
    if IsBlank(userId) then Some(UserIdMissing)
    else if IsBlank(password) then Some(PasswordMissing)
    else None
  }

  /** The user id is checked first: each message is shown exactly when its field is the first blank one. */
  lemma ValidateSignInMessages(userId: string, password: string)
    ensures ValidateSignIn(userId, password) == Some(UserIdMissing) <==> IsBlank(userId)
    ensures ValidateSignIn(userId, password) == Some(PasswordMissing) <==> !IsBlank(userId) && IsBlank(password)
  {
  }

  /** The blank test is the source's `!field.trim()`: a field counts as filled in once trimming leaves something. */
  lemma ValidationUsesTrim(userId: string, password: string)
    ensures ValidateSignIn(userId, password).None? <==> Trim(userId) != "" && Trim(password) != ""
    ensures ValidateSignIn(userId, password) == Some(UserIdMissing) <==> Trim(userId) == ""
  {
    TrimmedEmptyIff(userId);
    TrimmedEmptyIff(password);
    ValidateSignInMessages(userId, password);
  }

  /** The catch block's toast text: by status 400, 404, 401, else the server's text, the error's message or a generic one. */
  function SignInErrorMessage(f: Failure): (r: string)
    ensures r != ""
    ensures Status(f) == Some(400) ==> r == OrElse(ResponseText(f), InvalidCredentials)
    ensures Status(f) == Some(404) ==> r == UserNotFound
    ensures Status(f) == Some(401) ==> r == Unauthorized
    ensures Status(f) !in {Some(400), Some(404), Some(401)} ==>
      r == OrElse(ResponseText(f), OrElse(f.message, SignInFailed))
  {
    if Status(f) == Some(400) then OrElse(ResponseText(f), InvalidCredentials)
    else if Status(f) == Some(404) then UserNotFound
    else if Status(f) == Some(401) then Unauthorized
    else OrElse(ResponseText(f), OrElse(f.message, SignInFailed))
  }

  /** `String(data)` for the error thrown on an unsuccessful response: an object prints as "[object Object]". */
  function DataText(d: SignInData): string {
    match d
    case Message(t) => t
    case Credentials(_) => "[object Object]"
  }

  /** What the form does once the request returns. */
  datatype SignInStep = ShowOtp | LogIn(credentials: LoginCredentials) | Fail(message: string)

  /**
   * A successful string answer asks for the OTP form, successful credentials
   * log in; an unsuccessful answer throws `new Error(data || "Failed to
   * sign in")`, which the catch block turns into a toast like any failure.
   */
  function Step(answer: Answer<SignInResponse>): (r: SignInStep)
    ensures r.Fail? ==> r.message != ""
  {
    match answer
    case Answered(resp) =>
      if resp.success then
        (match resp.data
         case Message(_) => ShowOtp
         case Credentials(c) => LogIn(c))
      else Fail(SignInErrorMessage(Failure(None, Some(OrElse(Some(DataText(resp.data)), FailedToSignIn)))))
    case Threw(f) => Fail(SignInErrorMessage(f))
  }

  /** An unsuccessful answer shows its own text, or "Failed to sign in" when the text is empty. */
  lemma UnsuccessfulAnswerMessage(resp: SignInResponse)
    requires !resp.success
    ensures Step(Answered(resp)) == Fail(OrElse(Some(DataText(resp.data)), FailedToSignIn))
    ensures resp.data.Credentials? ==> Step(Answered(resp)) == Fail("[object Object]")
  {
  }

  /** A value in local storage; the locations are stored as their JSON text. */
  datatype StoredValue = Text(s: string) | LocationsJson(locations: seq<Location>)

  /** The six entries a successful login writes. */
  function CredentialWrites(c: LoginCredentials): (r: map<string, StoredValue>)
    ensures r.Keys == {"authToken", "userId", "companyId", "companyName", "userRole", "locations"}
    ensures r["authToken"] == Text(c.appToken) && r["userId"] == Text(c.userId)
    ensures r["companyId"] == Text(if c.companyId.Some? then IntToString(c.companyId.value) else "")
    ensures r["companyName"] == Text(OrElse(c.companyName, "")) && r["userRole"] == Text(OrElse(c.userRole, ""))
    ensures r["locations"] == LocationsJson(if c.locations.Some? then c.locations.value else [])
  {
    map[
      "authToken" := Text(c.appToken),
      "userId" := Text(c.userId),
      "companyId" := Text(if c.companyId.Some? then IntToString(c.companyId.value) else ""),
      "companyName" := Text(OrElse(c.companyName, "")),
      "userRole" := Text(OrElse(c.userRole, "")),
      "locations" := LocationsJson(if c.locations.Some? then c.locations.value else [])]
  }

  /** Storage after the writes: the written keys overwritten, every other key as it was. */
  function Store(storage: map<string, StoredValue>, writes: map<string, StoredValue>): (r: map<string, StoredValue>)
    ensures r.Keys == storage.Keys + writes.Keys
    ensures forall k :: k in writes ==> r[k] == writes[k]
    ensures forall k :: k in storage && k !in writes ==> r[k] == storage[k]
  {
    storage + writes
  }

  /** Only a successful login touches storage; the token it stores is the one the next request will carry. */
  lemma StorageOnlyOnLogin(answer: Answer<SignInResponse>)
    ensures Step(answer).LogIn? <==> answer.Answered? && answer.value.success && answer.value.data.Credentials?
    ensures Step(answer).LogIn? ==> CredentialWrites(Step(answer).credentials)["authToken"] == Text(answer.value.data.credentials.appToken)
  {
  }

  /** The form's state, with local storage, the toasts shown and the scheduled navigation. */
  class SignInForm {
    var userId: string
    var password: string
    var showPassword: bool
    var loading: bool
    var isOtpForm: bool
    var storage: map<string, StoredValue>
    var toasts: seq<Toast>
    /** `navigate("/")` is due in one second. */
    var navigationScheduled: bool

    constructor (storage: map<string, StoredValue>)
      ensures userId == "" && password == "" && !showPassword && !loading && !isOtpForm
      ensures this.storage == storage && toasts == [] && !navigationScheduled
    {
      userId := "";
      password := "";
      showPassword := false;
      loading := false;
      isOtpForm := false;
      this.storage := storage;
      toasts := [];
      navigationScheduled := false;
    }

    method SetUserId(v: string)
      modifies this`userId
      ensures userId == v
    {
      userId := v;
    }

    method SetPassword(v: string)
      modifies this`password
      ensures password == v
    {
      password := v;
    }

    method ToggleShowPassword()
      modifies this`showPassword
      ensures showPassword == !old(showPassword)
    {
      showPassword := !showPassword;
    }

    /**
     * `handleSubmit`. An invalid form sends nothing and shows its message.
     * A valid one sends the fields as typed; `answer` is the call's result.
     * Whatever happens, `loading` is off afterwards.
     */
    method HandleSubmit(answer: Answer<SignInResponse>) returns (request: Option<SignInRequest>)
      modifies this`loading, this`isOtpForm, this`storage, this`toasts, this`navigationScheduled
      ensures !loading
      ensures request.None? <==> ValidateSignIn(userId, password).Some?
      ensures request.None? ==>
        && toasts == old(toasts) + [ErrorToast(ValidateSignIn(userId, password).value)]
        && storage == old(storage) && isOtpForm == old(isOtpForm)
        && navigationScheduled == old(navigationScheduled)
      ensures request.Some? ==> request.value == SignInRequest(userId, password)
      ensures request.Some? && Step(answer).ShowOtp? ==>
        isOtpForm && toasts == old(toasts) && storage == old(storage)
        && navigationScheduled == old(navigationScheduled)
      ensures request.Some? && Step(answer).LogIn? ==>
        && storage == Store(old(storage), CredentialWrites(Step(answer).credentials))
        && toasts == old(toasts) + [SuccessToast(LoginSuccessful)] && navigationScheduled
        && isOtpForm == old(isOtpForm)
      ensures request.Some? && Step(answer).Fail? ==>
        && toasts == old(toasts) + [ErrorToast(Step(answer).message)] && storage == old(storage)
        && isOtpForm == old(isOtpForm) && navigationScheduled == old(navigationScheduled)
    {
      var invalid := ValidateSignIn(userId, password);
      loading := true;
      if invalid.Some? {
        request := None;
        toasts, loading := toasts + [ErrorToast(invalid.value)], false;
      } else {
        request := Some(SignInRequest(userId, password));
        var otp, stored, shown, navigate := isOtpForm, storage, toasts, navigationScheduled;
        match Step(answer) {
          case ShowOtp =>
            otp := true;
          case LogIn(c) =>
            stored := Store(stored, CredentialWrites(c));
            shown := shown + [SuccessToast(LoginSuccessful)];
            navigate := true;
          case Fail(m) =>
            shown := shown + [ErrorToast(m)];
        }
        isOtpForm, storage, toasts, navigationScheduled, loading := otp, stored, shown, navigate, false;
      }
    }

    /** The OTP form's `onSuccess`: back to sign-in with a success toast and both fields cleared. */
    method HandleOtpSuccess()
      modifies this`isOtpForm, this`toasts, this`userId, this`password
      ensures !isOtpForm && userId == "" && password == ""
      ensures toasts == old(toasts) + [SuccessToast(PasswordSetSuccessfully)]
    {
      isOtpForm := false;
      toasts := toasts + [SuccessToast(PasswordSetSuccessfully)];
      userId := "";
      password := "";
    }

    /** The OTP form's `onBack`: back to sign-in with both fields cleared. */
    method HandleBackToSignIn()
      modifies this`isOtpForm, this`userId, this`password
      ensures !isOtpForm && userId == "" && password == ""
    {
      isOtpForm := false;
      userId := "";
      password := "";
    }
  }
}
