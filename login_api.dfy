/**
 * The shapes the sign-in and OTP forms exchange with the login service,
 * and the two requests they send. The service itself is not modelled: a
 * call's result is an `Answer`, supplied from outside.
 */
module LoginApi {
  import opened Wrappers

  datatype Location = Location(locationId: int, locationName: string)

  /**
   * What a successful sign-in returns. The company id and name, the role and
   * the locations may be missing at run time, which the form guards against.
   */
  datatype LoginCredentials = LoginCredentials(
    userId: string,
    companyId: Option<int>,
    userEmail: string,
    companyName: Option<string>,
    userRole: Option<string>,
    appToken: string,
    locations: Option<seq<Location>>)

  /** `data: string | LoginCredentials`. */
  datatype SignInData = Message(text: string) | Credentials(credentials: LoginCredentials)

  datatype SignInResponse = SignInResponse(success: bool, data: SignInData)

  datatype ChangePasswordResponse = ChangePasswordResponse(success: bool, data: string)

  datatype SignInRequest = SignInRequest(userId: string, password: string)

  datatype ChangePasswordRequest = ChangePasswordRequest(userId: string, otpCode: string, password: string, confirmPassword: string)

  /** The service endpoints, relative to the shared client's base URL. */
  const SignInPath := "/Login/SignInUser"
  const ChangePasswordPath := "/Login/ChangePasswordViaOTP"

  /** An HTTP error's response: its status and the `data.data` text of its body, if any. */
  datatype ErrorResponse = ErrorResponse(status: int, dataData: Option<string>)

  /** A thrown error: `err.response` if the server answered, and `err.message`. */
  datatype Failure = Failure(response: Option<ErrorResponse>, message: Option<string>)

  /** The end of an awaited call: the response body, or the error it threw. */
  datatype Answer<T> = Answered(value: T) | Threw(failure: Failure)

  /** `err.response?.data?.data`. */
  function ResponseText(f: Failure): Option<string> {
    if f.response.Some? then f.response.value.dataData else None
  }

  /** `err.response?.status`. */
  function Status(f: Failure): Option<int> {
    if f.response.Some? then Some(f.response.value.status) else None
  }
}
