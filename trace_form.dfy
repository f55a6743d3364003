/** The stand-alone login page of trace_lens/trace.js: the module-level code
    and its send time, the OTP request, the submit checks that accumulate
    errors, the reset after the simulated login, and the input filters. The
    page's elements are read as the values passed in; which error elements
    are shown is the result of a check. */
module TraceForm {
  import opened Wrappers
  import opened Strings
  import opened EmailPatterns
  import Otp

  const OtpLifetime := 300000
  const BadMobile := "Please enter a valid 10-digit mobile number"

  /** Why the OTP check fails, in the order the checks run. */
  datatype OtpProblem = OtpEmpty | NoneGenerated | Mismatch | Expired

  /** The OTP check of the submit handler: empty, then nothing generated,
      then a different code, and only for the matching code the age. */
  function CheckOtp(entered: string, generated: string, sentTime: Option<int>, now: int): (r: Option<OtpProblem>)
    ensures r == Some(OtpEmpty) <==> entered == ""
    ensures r == Some(NoneGenerated) <==> entered != "" && generated == ""
    ensures r == Some(Mismatch) <==> entered != "" && generated != "" && entered != generated
    ensures r == Some(Expired) ==> entered == generated && sentTime.Some? && now - sentTime.value > OtpLifetime
    ensures r.None? <==>
      entered != "" && entered == generated
      && !(sentTime.Some? && sentTime.value != 0 && now - sentTime.value > OtpLifetime)
  {
    if entered == "" then Some(OtpEmpty)
    else if generated == "" then Some(NoneGenerated)
    else if entered != generated then Some(Mismatch)
    else if sentTime.Some? && sentTime.value != 0 && now - sentTime.value > OtpLifetime then Some(Expired)
    else None
  }

  /** The checks of one submit: each field is checked, so several errors
      can show at once. */
  datatype SubmitErrors = SubmitErrors(email: bool, password: bool, mobile: bool, otp: Option<OtpProblem>)

  predicate NoErrors(e: SubmitErrors) {
    !e.email && !e.password && !e.mobile && e.otp.None?
  }

  /** The four checks on the trimmed values. */
  function CheckSubmit(email: string, password: string, mobile: string, otp: string,
                       generated: string, sentTime: Option<int>, now: int): (r: SubmitErrors)
    ensures r.email <==> !LooseEmail(Trim(email))
    ensures r.password <==> Utf16Length(Trim(password)) < 6
    ensures r.mobile <==> !IsDigitsOfLength(Trim(mobile), 10)
    ensures r.otp == CheckOtp(Trim(otp), generated, sentTime, now)
  {
    var e, p, m := Trim(email), Trim(password), Trim(mobile);
    SubmitErrors(e == "" || !LooseEmail(e), p == "" || Utf16Length(p) < 6, m == "" || !IsDigitsOfLength(m, 10),
                 CheckOtp(Trim(otp), generated, sentTime, now))
  }

  /** Once the code is reset, no entered code gets past the OTP check. */
  lemma ResetCodeRefused(entered: string, now: int)
    ensures CheckOtp(entered, "", None, now).Some?
  {
  }

  /** The blur check of the email field shows its error only for a
      non-empty value the loose pattern rejects. */
  function EmailBlurShowsError(value: string): (shown: bool)
    ensures shown <==> Trim(value) != "" && !LooseEmail(Trim(value))
  {
    var email := Trim(value);
    email != "" && !LooseEmail(email)
  }

  class TracePage {
    var generatedOtp: string
    var otpSentTime: Option<int>
    /** The mobile error element: hidden, or shown with its text. */
    var mobileError: Option<string>

    constructor ()
      ensures generatedOtp == "" && otpSentTime == None && mobileError == None
    {
      generatedOtp := "";
      otpSentTime := None;
      mobileError := None;
    }

    /** `generateOTP()`: a trimmed mobile that is not ten digits shows the
        error and nothing is generated; otherwise a six-digit code and its
        send time are kept. */
    method GenerateOtp(mobileValue: string, draw: nat, now: int) returns (sent: bool)
      requires draw < 900000
      modifies this
      ensures sent <==> IsDigitsOfLength(Trim(mobileValue), 10)
      ensures !sent ==> mobileError == Some(BadMobile) && generatedOtp == old(generatedOtp) && otpSentTime == old(otpSentTime)
      ensures sent ==> mobileError == None && generatedOtp == Otp.CodeOf(draw) && otpSentTime == Some(now)
    {
      var mobile := Trim(mobileValue);
      if !IsDigitsOfLength(mobile, 10) {
        mobileError := Some(BadMobile);
        return false;
      }
      mobileError := None;
      generatedOtp := Otp.CodeOf(draw);
      otpSentTime := Some(now);
      return true;
    }

    /** The submit handler's checks against the current code; the login
        goes ahead only when none fails. */
    method Submit(email: string, password: string, mobile: string, otp: string, now: int)
      returns (errors: SubmitErrors, proceeds: bool)
      ensures errors == CheckSubmit(email, password, mobile, otp, generatedOtp, otpSentTime, now)
      ensures proceeds <==>
        LooseEmail(Trim(email)) && Utf16Length(Trim(password)) >= 6 && IsDigitsOfLength(Trim(mobile), 10)
        && CheckOtp(Trim(otp), generatedOtp, otpSentTime, now).None?
    {
      var e, p, m, o := Trim(email), Trim(password), Trim(mobile), Trim(otp);
      var hasError := false;
      var emailBad, passwordBad, mobileBad := false, false, false;
      var otpProblem: Option<OtpProblem> := None;
      if e == "" || !LooseEmail(e) {
        emailBad, hasError := true, true;
      }
      if p == "" || Utf16Length(p) < 6 {
        passwordBad, hasError := true, true;
      }
      if m == "" || !IsDigitsOfLength(m, 10) {
        mobileBad, hasError := true, true;
      }
      if o == "" {
        otpProblem, hasError := Some(OtpEmpty), true;
      } else if generatedOtp == "" {
        otpProblem, hasError := Some(NoneGenerated), true;
      } else if o != generatedOtp {
        otpProblem, hasError := Some(Mismatch), true;
      } else if otpSentTime.Some? && otpSentTime.value != 0 && now - otpSentTime.value > OtpLifetime {
        otpProblem, hasError := Some(Expired), true;
      }
      errors := SubmitErrors(emailBad, passwordBad, mobileBad, otpProblem);
      proceeds := !hasError;
    }

    /** The end of the simulated login: the code and its send time are
        cleared, so the same code cannot log in again. */
    method FinishLogin()
      modifies this
      ensures generatedOtp == "" && otpSentTime == None && mobileError == old(mobileError)
      ensures forall entered, now :: CheckOtp(entered, generatedOtp, otpSentTime, now).Some?
    {
      generatedOtp := "";
      otpSentTime := None;
    }

    /** The mobile input keeps only its digits, and its error hides once ten
        remain. */
    method OnMobileInput(value: string) returns (kept: string)
      modifies this
      ensures kept == DigitsOnly(value) && AllDigits(kept)
      ensures |kept| == 10 ==> mobileError == None
      ensures |kept| != 10 ==> mobileError == old(mobileError)
      ensures generatedOtp == old(generatedOtp) && otpSentTime == old(otpSentTime)
    {
      kept := DigitsOnly(value);
      if |kept| == 10 {
        mobileError := None;
      }
    }
  }

  /** The OTP input's filter keeps only digits, leaves a digit string as it
      is, and so applied twice changes nothing more. */
  lemma OtpInputFilter(value: string)
    ensures AllDigits(DigitsOnly(value)) && DigitsOnly(DigitsOnly(value)) == DigitsOnly(value)
  {
    DigitsOnlyOfDigits(DigitsOnly(value));
  }
}
