/** The login page of frontend/src/components/Login/Login.jsx: the form
    fields and their error map, the four field checks, editing a field, the
    OTP request with its five-minute expiry, and the expiry check on submit.
    The translation `t` is a parameter. `sendOTP` and `login` are given by
    how they settle, and the clock by `now` in milliseconds. */
module LoginForm {
  import opened Wrappers
  import opened Strings
  import opened EmailPatterns

  /** 5 * 60 * 1000 ms */
  const OtpLifetime := 300000

  const ShortPassword := "Password must be at least 6 characters"
  const OtpDigits := "OTP must be 6 digits"
  const SendFailed := "Failed to send OTP"
  const SendOffline := "Network error. Please try again."
  const OtpExpired := "OTP has expired. Please request a new one."

  /** The `name` of an input. */
  datatype Field = EmailField | PasswordField | MobileField | OtpField

  function Key(f: Field): string {
    match f
    case EmailField => "email"
    case PasswordField => "password"
    case MobileField => "mobile"
    case OtpField => "otp"
  }

  datatype FormData = FormData(email: string, password: string, mobile: string, otp: string)

  function Get(d: FormData, f: Field): string {
    match f
    case EmailField => d.email
    case PasswordField => d.password
    case MobileField => d.mobile
    case OtpField => d.otp
  }

  function Set(d: FormData, f: Field, value: string): (r: FormData)
    ensures Get(r, f) == value
    ensures forall g :: g != f ==> Get(r, g) == Get(d, g)
  {
    match f
    case EmailField => d.(email := value)
    case PasswordField => d.(password := value)
    case MobileField => d.(mobile := value)
    case OtpField => d.(otp := value)
  }

  /** The form passes every check. */
  predicate FormValid(d: FormData) {
    StrictEmail(d.email) && Utf16Length(d.password) >= 6
    && IsDigitsOfLength(d.mobile, 10) && IsDigitsOfLength(d.otp, 6)
  }

  /** `newErrors` as `validateForm` fills it: every check runs, and each
      failing field gets its message; an empty field gets the "required"
      text and a malformed one the format text. */
  function FormErrors(d: FormData, t: string -> string): (errs: map<string, string>)
    ensures errs.Keys <= {"email", "password", "mobile", "otp"}
    ensures "email" in errs <==> !StrictEmail(d.email)
    ensures "password" in errs <==> Utf16Length(d.password) < 6
    ensures "mobile" in errs <==> !IsDigitsOfLength(d.mobile, 10)
    ensures "otp" in errs <==> !IsDigitsOfLength(d.otp, 6)
    ensures "email" in errs ==> errs["email"] == t("emailRequired")
    ensures "password" in errs ==>
      errs["password"] == (if d.password == "" then t("passwordRequired") else ShortPassword)
    ensures "mobile" in errs ==> errs["mobile"] == t("mobileRequired")
    ensures "otp" in errs ==> errs["otp"] == (if d.otp == "" then t("otpRequired") else OtpDigits)
  {
    var e0: map<string, string> := map[];
    var e1 := if d.email == "" || !StrictEmail(d.email) then e0["email" := t("emailRequired")] else e0;
    var e2 := if d.password == "" then e1["password" := t("passwordRequired")]
              else if Utf16Length(d.password) < 6 then e1["password" := ShortPassword]
              else e1;
    var e3 := if d.mobile == "" || !IsDigitsOfLength(d.mobile, 10) then e2["mobile" := t("mobileRequired")] else e2;
    if d.otp == "" then e3["otp" := t("otpRequired")]
    else if !IsDigitsOfLength(d.otp, 6) then e3["otp" := OtpDigits]
    else e3
  }

  /** `validateForm` is true exactly when no field error is recorded, that
      is exactly when all four checks pass. */
  lemma FormErrorsEmptyIff(d: FormData, t: string -> string)
    ensures FormErrors(d, t) == map[] <==> FormValid(d)
  {
    var errs := FormErrors(d, t);
    if !FormValid(d) {
      assert "email" in errs || "password" in errs || "mobile" in errs || "otp" in errs;
    }
  }

  /** The server's error text, or the fallback when it is absent or empty. */
  function OrText(s: Option<string>, fallback: string): (r: string)
    ensures s.Some? && s.value != "" ==> r == s.value
    ensures !(s.Some? && s.value != "") ==> r == fallback
  {
    if s.Some? && s.value != "" then s.value else fallback
  }

  /** How `sendOTP(mobile)` settles. */
  datatype SendOutcome = SendResolved(success: bool, otp: Option<string>, error: Option<string>) | SendThrew

  /** How `login(formData)` settles. */
  datatype LoginOutcome = LoginResolved(success: bool, error: Option<string>) | LoginThrew

  /** `otpExpiry && now > otpExpiry`: an expiry that is set (and not the
      falsy 0) and already passed. */
  predicate Expired(expiry: Option<int>, now: int) {
    expiry.Some? && expiry.value != 0 && now > expiry.value
  }

  class LoginPage {
    var form: FormData
    var errors: map<string, string>
    var success: string
    var otpSent: bool
    var otpExpiry: Option<int>
    var isLoading: bool
    var generatedOtp: string

    constructor ()
      ensures form == FormData("", "", "", "") && errors == map[] && success == ""
      ensures !otpSent && otpExpiry == None && !isLoading && generatedOtp == ""
    {
      form := FormData("", "", "", "");
      errors := map[];
      success := "";
      otpSent := false;
      otpExpiry := None;
      isLoading := false;
      generatedOtp := "";
    }

    /** `handleInputChange`: the field takes the value, and its own error,
        when set, is blanked; every other error stays. */
    method HandleInputChange(f: Field, value: string)
      modifies this
      ensures form == Set(old(form), f, value)
      ensures Key(f) in old(errors) && old(errors)[Key(f)] != "" ==> errors == old(errors)[Key(f) := ""]
      ensures !(Key(f) in old(errors) && old(errors)[Key(f)] != "") ==> errors == old(errors)
      ensures errors.Keys == old(errors.Keys)
      ensures forall k :: k in errors && k != Key(f) ==> errors[k] == old(errors)[k]
      ensures success == old(success) && otpSent == old(otpSent) && otpExpiry == old(otpExpiry)
      ensures isLoading == old(isLoading) && generatedOtp == old(generatedOtp)
    {
      form := Set(form, f, value);
      var k := Key(f);
      if k in errors && errors[k] != "" {
        errors := errors[k := ""];
      }
    }

    /** `validateForm()`: the error map becomes exactly the new errors. */
    method ValidateForm(t: string -> string) returns (ok: bool)
      modifies this
      ensures errors == FormErrors(old(form), t)
      ensures ok <==> FormValid(form)
      ensures form == old(form) && success == old(success) && otpSent == old(otpSent)
      ensures otpExpiry == old(otpExpiry) && isLoading == old(isLoading) && generatedOtp == old(generatedOtp)
    {
      errors := FormErrors(form, t);
      ok := |errors.Keys| == 0;
      FormErrorsEmptyIff(form, t);
    }

    /** `handleGenerateOTP()`: a mobile that is not ten digits sets its
        error and `sendOTP` is not called. Otherwise a successful send marks
        the OTP sent with an expiry five minutes from `now` (and keeps the
        development code when one comes back); a failed send or a throw sets
        the mobile error. Loading always ends. */
    method HandleGenerateOtp(t: string -> string, outcome: SendOutcome, now: int) returns (called: bool)
      modifies this
      ensures called <==> IsDigitsOfLength(old(form).mobile, 10)
      ensures !called ==>
        errors == old(errors)["mobile" := t("mobileRequired")] && otpSent == old(otpSent)
        && otpExpiry == old(otpExpiry) && success == old(success) && generatedOtp == old(generatedOtp)
      ensures called && outcome.SendResolved? && outcome.success ==>
        otpSent && otpExpiry == Some(now + OtpLifetime) && success == t("otpSentSuccess")
        && errors == old(errors)["mobile" := ""]
        && generatedOtp == (if outcome.otp.Some? && outcome.otp.value != "" then outcome.otp.value else old(generatedOtp))
      ensures called && !(outcome.SendResolved? && outcome.success) ==>
        otpSent == old(otpSent) && otpExpiry == old(otpExpiry) && success == old(success)
        && generatedOtp == old(generatedOtp)
        && errors == old(errors)["mobile" := if outcome.SendThrew? then SendOffline else OrText(outcome.error, SendFailed)]
      ensures isLoading == (if called then false else old(isLoading))
      ensures form == old(form)
    {
      if !IsDigitsOfLength(form.mobile, 10) {
        errors := errors["mobile" := t("mobileRequired")];
        return false;
      }
      called := true;
      errors := errors["mobile" := ""];
      isLoading := true;
      SettleOtpRequest(t, outcome, now);
      isLoading := false;
    }

    /** The part of `handleGenerateOTP()` after `sendOTP` settles. */
    method SettleOtpRequest(t: string -> string, outcome: SendOutcome, now: int)
      modifies this
      ensures outcome.SendResolved? && outcome.success ==>
        otpSent && otpExpiry == Some(now + OtpLifetime) && success == t("otpSentSuccess")
        && errors == old(errors)
        && generatedOtp == (if outcome.otp.Some? && outcome.otp.value != "" then outcome.otp.value else old(generatedOtp))
      ensures !(outcome.SendResolved? && outcome.success) ==>
        otpSent == old(otpSent) && otpExpiry == old(otpExpiry) && success == old(success)
        && generatedOtp == old(generatedOtp)
        && errors == old(errors)["mobile" := if outcome.SendThrew? then SendOffline else OrText(outcome.error, SendFailed)]
      ensures form == old(form) && isLoading == old(isLoading)
    {
      match outcome {
        case SendResolved(ok, code, err) =>
          if ok {
            otpSent := true;
            otpExpiry := Some(now + OtpLifetime);
            success := t("otpSentSuccess");
            if code.Some? && code.value != "" {
              generatedOtp := code.value;
            }
          } else {
            errors := errors["mobile" := OrText(err, SendFailed)];
          }
        case SendThrew =>
          errors := errors["mobile" := SendOffline];
      }
    }

    /** `handleSubmit()`: a form that fails validation goes no further. An
        expired OTP then sets the OTP error, clears `otpSent`, and `login` is
        not called. Otherwise `login` settles into the success text or the
        general error. */
    method HandleSubmit(t: string -> string, now: int, outcome: LoginOutcome) returns (loginCalled: bool)
      modifies this
      ensures loginCalled <==> FormValid(old(form)) && !Expired(old(otpExpiry), now)
      ensures !FormValid(old(form)) ==>
        errors == FormErrors(old(form), t) && otpSent == old(otpSent) && success == old(success)
      ensures FormValid(old(form)) && Expired(old(otpExpiry), now) ==>
        errors == map["otp" := OtpExpired] && !otpSent && success == old(success)
      ensures loginCalled && outcome.LoginResolved? && outcome.success ==>
        errors == map[] && success == t("loginSuccess") && otpSent == old(otpSent)
      ensures loginCalled && !(outcome.LoginResolved? && outcome.success) ==>
        errors == map["general" := if outcome.LoginThrew? then t("networkError") else OrText(outcome.error, t("loginFailed"))]
        && success == old(success) && otpSent == old(otpSent)
      ensures isLoading == (if loginCalled then false else old(isLoading))
      ensures form == old(form) && otpExpiry == old(otpExpiry) && generatedOtp == old(generatedOtp)
    {
      var ok := ValidateForm(t);
      if !ok {
        return false;
      }
      FormErrorsEmptyIff(form, t);
      if otpExpiry.Some? && otpExpiry.value != 0 && now > otpExpiry.value {
        errors := errors["otp" := OtpExpired];
        otpSent := false;
        return false;
      }
      loginCalled := true;
      isLoading := true;
      match outcome {
        case LoginResolved(done, err) =>
          if done {
            success := t("loginSuccess");
          } else {
            errors := errors["general" := OrText(err, t("loginFailed"))];
          }
        case LoginThrew =>
          errors := errors["general" := t("networkError")];
      }
      isLoading := false;
    }
  }

  /** An OTP requested at `sent` lets a valid form reach `login` up to and
      including `sent + 300000`, and not a moment later. */
  lemma ExpiryWindow(sent: int, now: int)
    requires sent + OtpLifetime != 0
    ensures Expired(Some(sent + OtpLifetime), now) <==> now > sent + OtpLifetime
  {
  }
}
