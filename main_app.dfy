/** The single-page app of frontend/src/main.jsx: its own OTP request (a
    code made in the browser), the login gate, logout, the camera's
    detection guard, the language toggle and `t`. The random draw is a
    parameter, the one-second login delay runs at once, and the camera
    stream, canvas and mock faces are not modelled. */
module MainApp {
  import opened Wrappers
  import opened Strings
  import Otp
  import Language


  const LoginPage := "login"
  const DashboardPage := "dashboard"

  const BadMobile := "Please enter a valid 10-digit mobile number"
  const FillFields := "Please fill in all fields"
  const SendFirst := "Please send OTP first"
  const WrongOtp := "Invalid OTP. Please check your OTP."

  /** The signed-in user the demo login keeps: the email and mobile typed in
      (frontend/src/main.jsx:391-394). */
  datatype AppUser = AppUser(email: string, mobile: string)

  /** Whether the demo page sends a code: the mobile is non-empty and ten
      UTF-16 code units long, whatever those are (frontend/src/main.jsx:352).
      */
  predicate SendOtpAccepts(mobile: string) {
    mobile != "" && Utf16Length(mobile) == 10
  }

  /** Ten characters that are not digits pass this check although they are
      no mobile number. */
  lemma SendOtpIgnoresDigits()
    ensures SendOtpAccepts("abcdefghij") && !IsDigitsOfLength("abcdefghij", 10)
  {
    assert !IsDigit("abcdefghij"[0]);
  }

  /** The alert `handleLogin` stops at, if any: blank fields first, then an
      OTP never sent, then a code that differs from the one made. */
  function LoginGate(email: string, password: string, mobile: string, otp: string,
                     otpSent: bool, generatedOtp: string): (r: Option<string>)
    ensures r == Some(FillFields) <==> email == "" || password == "" || mobile == ""
    ensures r == Some(SendFirst) <==> email != "" && password != "" && mobile != "" && !otpSent
    ensures r == Some(WrongOtp) <==>
      email != "" && password != "" && mobile != "" && otpSent && otp != generatedOtp
    ensures r == None <==> email != "" && password != "" && mobile != "" && otpSent && otp == generatedOtp
  {
    if email == "" || password == "" || mobile == "" then Some(FillFields)
    else if !otpSent then Some(SendFirst)
    else if otp != generatedOtp then Some(WrongOtp)
    else None
  }

  /** After logout the gate refuses every login until the fields are filled
      and a new code is sent. */
  lemma LoggedOutGateRefuses(otp: string)
    ensures LoginGate("", "", "", otp, false, "") == Some(FillFields)
  {
  }

  /** Once the fields are filled, a code from before logout is refused: the
      gate asks for a new OTP first. */
  lemma LoggedOutCodeNotReused(email: string, password: string, mobile: string, otp: string)
    requires email != "" && password != "" && mobile != ""
    ensures LoginGate(email, password, mobile, otp, false, "") == Some(SendFirst)
  {
  }

  class App {
    var currentPage: string
    var language: string
    var user: Option<AppUser>
    var isLoading: bool
    var email: string
    var password: string
    var mobile: string
    var otp: string
    var otpSent: bool
    var generatedOtp: string
    var isCameraActive: bool
    /** The pending `setInterval` handle, if any. */
    var detectionInterval: Option<nat>
    var isDetecting: bool
    var faceCount: nat

    constructor ()
      ensures currentPage == LoginPage && language == Language.DefaultLanguage && user == None
      ensures email == "" && password == "" && mobile == "" && otp == "" && !otpSent && generatedOtp == ""
      ensures !isLoading && !isCameraActive && detectionInterval == None && !isDetecting && faceCount == 0
    {
      currentPage := LoginPage;
      language := Language.DefaultLanguage;
      user := None;
      isLoading := false;
      email, password, mobile, otp := "", "", "", "";
      otpSent := false;
      generatedOtp := "";
      isCameraActive := false;
      detectionInterval := None;
      isDetecting := false;
      faceCount := 0;
    }

    /** `t(key)` over the app's own tables: the current language's string,
        an inherited built-in for an `Object.prototype` name the table does
        not define, or the key. */
    function T(tables: map<string, map<string, string>>, key: string): (r: Language.Text)
      reads this
      requires language in tables
      ensures key !in tables[language] && key !in Language.ObjectPrototypeNames ==> r == Language.Str(key)
      ensures key in tables[language] && tables[language][key] != "" ==> r == Language.Str(tables[language][key])
      ensures r.Builtin? <==> key !in tables[language] && key in Language.ObjectPrototypeNames
      ensures r == Language.Str(key) || (key in tables[language] && r == Language.Str(tables[language][key]))
        || r == Language.Builtin(key)
    {
      Language.Lookup(tables[language], key)
    }

    /** The language button flips between the two tables. */
    method ToggleLanguage()
      modifies this
      ensures language == (if old(language) == "english" then "hindi" else "english")
      ensures currentPage == old(currentPage) && user == old(user) && otpSent == old(otpSent)
    {
      language := if language == "english" then "hindi" else "english";
    }

    /** `handleSendOtp()`: a mobile that is not ten characters long is
        refused; otherwise a six-digit code is made and `otpSent` is set. */
    method HandleSendOtp(draw: nat) returns (sent: bool)
      requires draw < 900000
      modifies this
      ensures sent <==> SendOtpAccepts(old(mobile))
      ensures sent ==> generatedOtp == Otp.CodeOf(draw) && IsDigitsOfLength(generatedOtp, 6) && otpSent
      ensures !sent ==> generatedOtp == old(generatedOtp) && otpSent == old(otpSent)
      ensures email == old(email) && mobile == old(mobile) && otp == old(otp) && user == old(user)
      ensures currentPage == old(currentPage) && isLoading == (if sent then false else old(isLoading))
    {
      if mobile == "" || Utf16Length(mobile) != 10 {
        return false;
      }
      RecordCode(Otp.CodeOf(draw));
      return true;
    }

    /** The part of `handleSendOtp()` past the check: the code is kept and
        `otpSent` is set while loading is shown. */
    method RecordCode(code: string)
      modifies this
      ensures generatedOtp == code && otpSent && !isLoading
      ensures email == old(email) && mobile == old(mobile) && otp == old(otp) && user == old(user)
      ensures currentPage == old(currentPage)
    {
      isLoading := true;
      generatedOtp := code;
      otpSent := true;
      isLoading := false;
    }

    /** `handleLogin()`: the gate's first failing check stops it; when all
        pass, the user becomes the form's email and mobile and the dashboard
        opens. */
    method HandleLogin() returns (refusal: Option<string>)
      modifies this
      ensures refusal == LoginGate(old(email), old(password), old(mobile), old(otp), old(otpSent), old(generatedOtp))
      ensures refusal.None? ==> user == Some(AppUser(old(email), old(mobile))) && currentPage == DashboardPage && !isLoading
      ensures refusal.Some? ==> user == old(user) && currentPage == old(currentPage) && isLoading == old(isLoading)
      ensures email == old(email) && password == old(password) && mobile == old(mobile) && otp == old(otp)
      ensures otpSent == old(otpSent) && generatedOtp == old(generatedOtp)
    {
      if email == "" || password == "" || mobile == "" {
        return Some(FillFields);
      }
      if !otpSent {
        return Some(SendFirst);
      }
      if otp != generatedOtp {
        return Some(WrongOtp);
      }
      isLoading := true;
      user := Some(AppUser(email, mobile));
      currentPage := DashboardPage;
      isLoading := false;
      return None;
    }

    /** `stopCamera()`: the detection interval is cleared and the camera is
        off with no faces counted. */
    method StopCamera()
      modifies this
      ensures detectionInterval == None && !isDetecting && !isCameraActive && faceCount == 0
      ensures user == old(user) && currentPage == old(currentPage) && language == old(language)
      ensures email == old(email) && password == old(password) && mobile == old(mobile) && otp == old(otp)
      ensures otpSent == old(otpSent) && generatedOtp == old(generatedOtp) && isLoading == old(isLoading)
    {
      detectionInterval := None;
      isDetecting := false;
      isCameraActive := false;
      faceCount := 0;
    }

    /** The logout button: the camera stops, the user is cleared, the login
        page returns, and every form field and the code are emptied. */
    method Logout()
      modifies this
      ensures user == None && currentPage == LoginPage
      ensures email == "" && password == "" && mobile == "" && otp == "" && !otpSent && generatedOtp == ""
      ensures !isCameraActive && detectionInterval == None && !isDetecting && faceCount == 0
      ensures language == old(language) && isLoading == old(isLoading)
      ensures LoginGate(email, password, mobile, otp, otpSent, generatedOtp) == Some(FillFields)
    {
      StopCamera();
      user := None;
      currentPage := LoginPage;
      email, password, mobile, otp := "", "", "", "";
      otpSent := false;
      generatedOtp := "";
    }

    /** `startFaceDetection()`: nothing happens while an interval exists or
        the camera is off; otherwise detection starts with the new interval
        (`interval` is the positive handle `setInterval` returns). */
    method StartFaceDetection(interval: nat) returns (started: bool)
      requires interval > 0
      modifies this
      ensures started <==> old(detectionInterval).None? && old(isCameraActive)
      ensures started ==> detectionInterval == Some(interval) && isDetecting
      ensures !started ==> detectionInterval == old(detectionInterval) && isDetecting == old(isDetecting)
      ensures isCameraActive == old(isCameraActive) && faceCount == old(faceCount) && user == old(user)
    {
      if detectionInterval.Some? || !isCameraActive {
        return false;
      }
      isDetecting := true;
      detectionInterval := Some(interval);
      return true;
    }
  }
}
