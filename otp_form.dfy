/**
 * The OTP form a new user sees after the first sign-in: it checks the code
 * and the new password in a fixed order, sends them for the user id it was
 * opened with, and on success shows a toast and hands control back.
 */
module Otp {
  import opened Wrappers
  import opened Strings
  import opened LoginApi

  const OtpMissing := "Please enter the OTP code"
  const NewPasswordMissing := "Please enter your new password"
  const PasswordTooShort := "Password must be at least 6 characters long"
  const ConfirmMissing := "Please confirm your new password"
  const PasswordsDiffer := "Passwords do not match"
  const FailedToChange := "Failed to change password"
  const ChangeFailed := "An error occurred while changing the password"
  const Changed := "Password set successfully! \U{1F389}"

  const MinPasswordLength := 6

  /**
   * `validateOtpForm`: the first failing check's message, or `None`. The
   * length check counts the untrimmed password's UTF-16 code units, as
   * JavaScript's `length` does.
   */
  function ValidateOtp(otp: string, newPassword: string, confirm: string): (r: Option<string>)
    ensures r.None? <==>
      !IsBlank(otp) && !IsBlank(newPassword) && Utf16Length(newPassword) >= MinPasswordLength
      && !IsBlank(confirm) && newPassword == confirm
    ensures r == Some(OtpMissing) <==> IsBlank(otp)
    ensures r == Some(NewPasswordMissing) <==> !IsBlank(otp) && IsBlank(newPassword)
    ensures r == Some(PasswordTooShort) <==> !IsBlank(otp) && !IsBlank(newPassword) && Utf16Length(newPassword) < MinPasswordLength
    ensures r == Some(ConfirmMissing) <==>
      !IsBlank(otp) && !IsBlank(newPassword) && Utf16Length(newPassword) >= MinPasswordLength && IsBlank(confirm)
    ensures r == Some(PasswordsDiffer) <==>
      !IsBlank(otp) && !IsBlank(newPassword) && Utf16Length(newPassword) >= MinPasswordLength && !IsBlank(confirm)
      && newPassword != confirm
  {
    if IsBlank(otp) then Some(OtpMissing)
    else if IsBlank(newPassword) then Some(NewPasswordMissing)
    else if Utf16Length(newPassword) < MinPasswordLength then Some(PasswordTooShort)
    else if IsBlank(confirm) then Some(ConfirmMissing)
    else if newPassword != confirm then Some(PasswordsDiffer)
    else None
  }

  /**
   * An accepted password is the confirmation exactly, at least six UTF-16
   * code units (so at least three characters) long, and something is left
   * of it after `trim`.
   */
  lemma AcceptedPassword(otp: string, newPassword: string, confirm: string)
    requires ValidateOtp(otp, newPassword, confirm).None?
    ensures newPassword == confirm && Utf16Length(newPassword) >= MinPasswordLength
    ensures 2 * |newPassword| >= MinPasswordLength
    ensures Trim(otp) != "" && Trim(newPassword) != ""
  {
    TrimmedEmptyIff(otp);
    TrimmedEmptyIff(newPassword);
  }

  /** Padding counts towards the length: "  abc " passes although it holds three letters. */
  lemma PaddingCountsTowardsLength()
    ensures ValidateOtp("1234", "  abc ", "  abc ").None?
  {
    assert !IsJsWhitespace("1234"[0]);
    assert !IsJsWhitespace("  abc "[2]);
  }

  /** Three emoji are six UTF-16 code units: the length check lets them through. */
  lemma AstralCharactersCountTwice()
    ensures Utf16Length("\U{1F600}\U{1F600}\U{1F600}") == 6
    ensures ValidateOtp("1234", "\U{1F600}\U{1F600}\U{1F600}", "\U{1F600}\U{1F600}\U{1F600}").None?
  {
    var e := "\U{1F600}\U{1F600}\U{1F600}";
    assert e[1..][1..][1..] == [];
    assert !IsJsWhitespace("1234"[0]);
    assert !IsJsWhitespace(e[0]);
  }

  /** The toast text after a failure: the server's text, the error's message, or a generic one. */
  function OtpErrorMessage(f: Failure): (r: string)
    ensures r != ""
    ensures r == OrElse(ResponseText(f), OrElse(f.message, ChangeFailed))
  {
    OrElse(ResponseText(f), OrElse(f.message, ChangeFailed))
  }

  /**
   * The end of a sent request: `None` on success, else the error's text.
   * An unsuccessful answer throws `new Error(data || "Failed to change
   * password")`, which the catch block shows like any other failure.
   */
  function OtpResult(answer: Answer<ChangePasswordResponse>): (r: Option<string>)
    ensures r.None? <==> answer.Answered? && answer.value.success
    ensures r.Some? ==> r.value != ""
    ensures answer.Answered? && !answer.value.success ==> r == Some(OrElse(Some(answer.value.data), FailedToChange))
  {
    match answer
    case Answered(resp) =>
      if resp.success then None
      else Some(OtpErrorMessage(Failure(None, Some(OrElse(Some(resp.data), FailedToChange)))))
    case Threw(f) => Some(OtpErrorMessage(f))
  }

  /** The form's state; `userId` comes from the sign-in form. */
  class OtpForm {
    const userId: string
    var otpCode: string
    var newPassword: string
    var confirmPassword: string
    var loading: bool
    var toasts: seq<Toast>

    constructor (userId: string)
      ensures this.userId == userId
      ensures otpCode == "" && newPassword == "" && confirmPassword == "" && !loading && toasts == []
    {
      this.userId := userId;
      otpCode := "";
      newPassword := "";
      confirmPassword := "";
      loading := false;
      toasts := [];
    }

    method SetOtpCode(v: string)
      modifies this`otpCode
      ensures otpCode == v
    {
      otpCode := v;
    }

    method SetNewPassword(v: string)
      modifies this`newPassword
      ensures newPassword == v
    {
      newPassword := v;
    }

    method SetConfirmPassword(v: string)
      modifies this`confirmPassword
      ensures confirmPassword == v
    {
      confirmPassword := v;
    }

    /**
     * `handleSubmit`: an invalid form sends nothing and shows its message; a
     * valid one sends the four fields as typed, and `onSuccess` is called
     * exactly when the change succeeds. `loading` is off afterwards.
     */
    method HandleSubmit(answer: Answer<ChangePasswordResponse>) returns (request: Option<ChangePasswordRequest>, calledOnSuccess: bool)
      modifies this`loading, this`toasts
      ensures !loading
      ensures var invalid := ValidateOtp(otpCode, newPassword, confirmPassword);
        invalid.Some? ==> request == None && !calledOnSuccess && toasts == old(toasts) + [ErrorToast(invalid.value)]
      ensures ValidateOtp(otpCode, newPassword, confirmPassword).None? ==>
        && request == Some(ChangePasswordRequest(userId, otpCode, newPassword, confirmPassword))
        && (calledOnSuccess <==> OtpResult(answer).None?)
        && toasts == old(toasts) + [if OtpResult(answer).None? then SuccessToast(Changed) else ErrorToast(OtpResult(answer).value)]
    {
      loading := true;
      var invalid := ValidateOtp(otpCode, newPassword, confirmPassword);
      if invalid.Some? {
        toasts := toasts + [ErrorToast(invalid.value)];
        loading := false;
        request, calledOnSuccess := None, false;
        return;
      }
      request := Some(ChangePasswordRequest(userId, otpCode, newPassword, confirmPassword));
      var result := OtpResult(answer);
      if result.None? {
        toasts := toasts + [SuccessToast(Changed)];
        calledOnSuccess := true;
      } else {
        toasts := toasts + [ErrorToast(result.value)];
        calledOnSuccess := false;
      }
      loading := false;
    }
  }
}
