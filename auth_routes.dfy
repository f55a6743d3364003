/** The second copy of the auth endpoints, in backend/routes/auth.js:
    `/send-otp` and `/login`. It differs from the controller: its own
    validation messages, a bcrypt cost fixed at 12, no profile, no mobile or
    `lastLogin` update, a token carrying only {userId}, and a `verifyOTP`
    whose promise is never awaited. */
module AuthRoutes {
  import opened Wrappers
  import opened Strings
  import opened UserSchema
  import opened Otp
  import opened Sms
  import opened AuthController

  /** One entry of `errors.array()`. */
  datatype FieldError = FieldError(path: string, msg: string)

  const MobileMessage := "Mobile number must be 10 digits"
  const EmailMessage := "Please provide a valid email"
  const PasswordMessage := "Password must be at least 6 characters"
  const OtpMessage := "OTP must be 6 digits"
  const SendFailed := "Failed to send OTP"
  const ServerError := "Server error"

  /** The bcrypt cost of this copy. */
  const RouteRounds := 12

  /** The rule of `/send-otp`: `mobile` matches `^[0-9]{10}$`. */
  function SendOtpErrors(mobile: string): (errs: seq<FieldError>)
    ensures errs == [] <==> IsDigitsOfLength(mobile, 10)
    ensures errs != [] ==> errs == [FieldError("mobile", MobileMessage)]
  {
    if IsDigitsOfLength(mobile, 10) then [] else [FieldError("mobile", MobileMessage)]
  }

  /** The four rules of `/login`, each field checked and reported in order;
      `isEmail` is express-validator's email test. */
  function LoginErrors(req: LoginRequest, isEmail: string -> bool): (errs: seq<FieldError>)
    ensures errs == [] <==> (isEmail(req.email) && |req.password| >= 6
                             && IsDigitsOfLength(req.mobile, 10) && IsDigitsOfLength(req.otp, 6))
    ensures |errs| <= 4
    ensures forall i :: 0 <= i < |errs| ==> errs[i].path in {"email", "password", "mobile", "otp"}
  {
    (if isEmail(req.email) then [] else [FieldError("email", EmailMessage)])
    + (if |req.password| >= 6 then [] else [FieldError("password", PasswordMessage)])
    + (if IsDigitsOfLength(req.mobile, 10) then [] else [FieldError("mobile", MobileMessage)])
    + (if IsDigitsOfLength(req.otp, 6) then [] else [FieldError("otp", OtpMessage)])
  }

  /** The user part of the login response. */
  datatype RouteUser = RouteUser(id: Id, email: string, mobile: string)

  datatype RouteResponse =
    | Rejected(errors: seq<FieldError>)
    | Failed(status: int, message: string)
    /** 'OTP sent successfully', with the code outside production. */
    | CodeSent(otp: Option<string>)
    | LoginOk(token: Token, user: RouteUser)

  function RouteStatus(r: RouteResponse): int {
    match r
    case Rejected(_) => 400
    case Failed(s, _) => s
    case _ => 200
  }

  // ---------------------------------------------------------------------
  // /send-otp

  function RouteSmsText(code: string): string {
    "Your Trace Lens OTP is: " + code + ". Valid for 5 minutes."
  }

  /** The OTP store afterwards, the response, and the text handed to
      `sendSMS` (production only). */
  function SendOtpRouteSpec(st: FallbackState, mobile: string, draw: nat, env: AuthEnv, sms: SmsOutcome)
    : (FallbackState, RouteResponse, Option<string>)
    requires draw < 900000
  {
    var errs := SendOtpErrors(mobile);
    if errs != [] then (st, Rejected(errs), None)
    else
      var code := CodeOf(draw);
      var st2 := Stored(st, OtpKey(mobile), code);
      if env.nodeEnv == Some("production") then
        (st2, if sms.SmsRejected? then Failed(500, SendFailed) else CodeSent(None), Some(RouteSmsText(code)))
      else (st2, CodeSent(Some(code)), None)
  }

  method SendOtpRoute(otps: OtpService, mobile: string, draw: nat, env: AuthEnv, sms: SmsOutcome)
    returns (resp: RouteResponse, smsText: Option<string>)
    requires draw < 900000
    modifies otps
    ensures (otps.State(), resp, smsText) == SendOtpRouteSpec(old(otps.State()), mobile, draw, env, sms)
  {
    var errs := SendOtpErrors(mobile);
    if errs != [] {
      return Rejected(errs), None;
    }
    var otp := otps.GenerateOTP(mobile, draw);
    if env.nodeEnv == Some("production") {
      smsText := Some(RouteSmsText(otp));
      if sms.SmsRejected? {
        return Failed(500, SendFailed), smsText;
      }
      return CodeSent(None), smsText;
    }
    return CodeSent(Some(otp)), None;
  }

  /** A mobile that is not ten digits is refused and nothing is stored;
      otherwise the new code verifies, and it is in the response exactly
      outside production. */
  lemma SendOtpRouteOutcome(st: FallbackState, mobile: string, draw: nat, env: AuthEnv, sms: SmsOutcome)
    requires draw < 900000
    ensures var r := SendOtpRouteSpec(st, mobile, draw, env, sms);
      (r.1.Rejected? <==> !IsDigitsOfLength(mobile, 10))
      && (r.1.Rejected? ==> r.0 == st)
      && (!r.1.Rejected? ==>
            (Verifies(r.0, mobile, CodeOf(draw))
             && (r.1 == CodeSent(Some(CodeOf(draw))) <==> env.nodeEnv != Some("production"))))
  {
    assert IsDigitsOfLength(CodeOf(draw), 6);
  }

  /** The route also takes `sendSMS` off its service, so in production every
      valid request answers 500 'Failed to send OTP' after storing a code. */
  lemma SendOtpRouteDetachedFails(st: FallbackState, mobile: string, draw: nat, env: AuthEnv, result: SendResult)
    requires draw < 900000 && env.nodeEnv == Some("production") && IsDigitsOfLength(mobile, 10)
    ensures var r := SendOtpRouteSpec(st, mobile, draw, env, CallSendSms(false, result));
      r.1 == Failed(500, SendFailed) && Verifies(r.0, mobile, CodeOf(draw))
  {
    assert CodeOf(draw) != "";
  }

  /** Called on the service, `sendSMS` resolves and the same request answers
      200 without the code. */
  lemma SendOtpRouteBoundSucceeds(st: FallbackState, mobile: string, draw: nat, env: AuthEnv, result: SendResult)
    requires draw < 900000 && env.nodeEnv == Some("production") && IsDigitsOfLength(mobile, 10)
    ensures SendOtpRouteSpec(st, mobile, draw, env, CallSendSms(true, result)).1 == CodeSent(None)
  {
  }

  // ---------------------------------------------------------------------
  // /login

  /** The value the `if (!isOTPValid)` test sees. `verifyOTP` is async: not
      awaited, it yields a Promise, which is always truthy; awaited, it yields
      the verdict. */
  function OtpGate(awaited: bool, verified: bool): (pass: bool)
    ensures pass <==> !awaited || verified
  {
    if awaited then verified else true
  }

  /** The document a first login through the route creates: no profile. */
  function RouteUserFields(req: LoginRequest, crypto: Crypto): UserFields {
    UserFields(Some(req.email), Some(crypto.hash(req.password, RouteRounds)), Some(req.mobile), Some(true), None)
  }

  /** The token of this copy: {userId}, JWT_SECRET, JWT_EXPIRE or 24h. */
  function RouteToken(env: AuthEnv, u: UserRecord): Option<Token> {
    Sign(Claims(Some(u.id), None, None), env.jwtSecret, OrDefault(env.jwtExpire, "24h"))
  }

  /** Delete the OTP (not awaited, but the in-memory delete is immediate),
      then sign; a missing secret makes `jwt.sign` throw: 500. */
  function RouteFinish(users: seq<UserRecord>, otp: FallbackState, u: UserRecord, mobile: string, env: AuthEnv)
    : (AuthState, RouteResponse)
  {
    var otp2 := Deleted(otp, mobile);
    var token := RouteToken(env, u);
    if token.None? then (AuthState(users, otp2), Failed(500, ServerError))
    else (AuthState(users, otp2), LoginOk(token.value, RouteUser(u.id, u.email, u.mobile)))
  }

  /** An unknown email: create the user (a failing save throws into the 500
      handler), then finish. */
  function RouteNew(st: AuthState, req: LoginRequest, env: AuthEnv, crypto: Crypto, newId: Id, now: int)
    : (AuthState, RouteResponse)
  {
    var f := RouteUserFields(req, crypto);
    var ins := Insert(st.users, newId, f, now);
    if ins.Err? then (st, Failed(500, ServerError))
    else RouteFinish(ins.value, st.otp, NewUser(newId, f, now).value, req.mobile, env)
  }

  /** The user at position `k`: the password, then finish. */
  function RouteKnown(st: AuthState, k: nat, req: LoginRequest, env: AuthEnv, crypto: Crypto)
    : (AuthState, RouteResponse)
    requires k < |st.users|
  {
    var u := st.users[k];
    if !crypto.compare(req.password, u.password) then (st, Failed(400, InvalidCredentials))
    else RouteFinish(st.users, st.otp, u, req.mobile, env)
  }

  /** Everything after the OTP test: find or create. */
  function RouteAfterOtp(st: AuthState, req: LoginRequest, env: AuthEnv, crypto: Crypto, newId: Id, now: int)
    : (AuthState, RouteResponse)
  {
    var found := FindByEmail(st.users, req.email);
    if found.None? then RouteNew(st, req, env, crypto, newId, now)
    else RouteKnown(st, found.value, req, env, crypto)
  }

  /** `/login`; `awaitOtp` says whether the `verifyOTP` promise is awaited
      (in the route as written it is not). */
  function LoginRouteSpec(st: AuthState, req: LoginRequest, isEmail: string -> bool, env: AuthEnv, crypto: Crypto,
                          newId: Id, now: int, awaitOtp: bool): (AuthState, RouteResponse)
  {
    var errs := LoginErrors(req, isEmail);
    if errs != [] then (st, Rejected(errs))
    else if !OtpGate(awaitOtp, Verifies(st.otp, req.mobile, req.otp)) then (st, Failed(400, InvalidOtp))
    else RouteAfterOtp(st, req, env, crypto, newId, now)
  }

  method RouteFinishLogin(users: UserCollection, otps: OtpService, user: UserRecord, mobile: string, env: AuthEnv)
    returns (resp: RouteResponse)
    modifies otps
    ensures (AuthState(users.users, otps.State()), resp) == RouteFinish(users.users, old(otps.State()), user, mobile, env)
  {
    otps.DeleteOTP(mobile);
    var token := RouteToken(env, user);
    if token.None? {
      return Failed(500, ServerError);
    }
    return LoginOk(token.value, RouteUser(user.id, user.email, user.mobile));
  }

  method LoginRoute(users: UserCollection, otps: OtpService, req: LoginRequest, isEmail: string -> bool, env: AuthEnv,
                    crypto: Crypto, newId: Id, now: int, awaitOtp: bool) returns (resp: RouteResponse)
    modifies users, otps
    ensures (AuthState(users.users, otps.State()), resp)
      == LoginRouteSpec(AuthState(old(users.users), old(otps.State())), req, isEmail, env, crypto, newId, now, awaitOtp)
  {
    var errs := LoginErrors(req, isEmail);
    if errs != [] {
      return Rejected(errs);
    }
    var verified := otps.VerifyOTP(req.mobile, req.otp);
    if !OtpGate(awaitOtp, verified) {
      return Failed(400, InvalidOtp);
    }
    var found := FindByEmail(users.users, req.email);
    if found.None? {
      resp := RouteCreateAndFinish(users, otps, req, env, crypto, newId, now);
    } else {
      resp := RouteCheckAndFinish(users, otps, found.value, req, env, crypto);
    }
  }

  /** The unknown-email branch of `/login`. */
  method RouteCreateAndFinish(users: UserCollection, otps: OtpService, req: LoginRequest, env: AuthEnv,
                              crypto: Crypto, newId: Id, now: int) returns (resp: RouteResponse)
    modifies users, otps
    ensures (AuthState(users.users, otps.State()), resp)
      == RouteNew(AuthState(old(users.users), old(otps.State())), req, env, crypto, newId, now)
  {
    var created := users.Create(newId, RouteUserFields(req, crypto), now);
    if created.Err? {
      return Failed(500, ServerError);
    }
    resp := RouteFinishLogin(users, otps, created.value, req.mobile, env);
  }

  /** The known-email branch of `/login`. */
  method RouteCheckAndFinish(users: UserCollection, otps: OtpService, k: nat, req: LoginRequest, env: AuthEnv,
                             crypto: Crypto) returns (resp: RouteResponse)
    requires k < |users.users|
    modifies otps
    ensures (AuthState(users.users, otps.State()), resp)
      == RouteKnown(AuthState(old(users.users), old(otps.State())), k, req, env, crypto)
  {
    var user := users.users[k];
    if !crypto.compare(req.password, user.password) {
      return Failed(400, InvalidCredentials);
    }
    resp := RouteFinishLogin(users, otps, user, req.mobile, env);
  }

  /** A request failing any rule is refused with the errors and changes
      nothing; a request passing all four is never refused by validation. */
  lemma LoginRouteValidation(st: AuthState, req: LoginRequest, isEmail: string -> bool, env: AuthEnv, crypto: Crypto,
                             newId: Id, now: int, awaitOtp: bool)
    ensures var r := LoginRouteSpec(st, req, isEmail, env, crypto, newId, now, awaitOtp);
      (r.1.Rejected? <==> !(isEmail(req.email) && |req.password| >= 6
                            && IsDigitsOfLength(req.mobile, 10) && IsDigitsOfLength(req.otp, 6)))
      && (r.1.Rejected? ==> r.0 == st && r.1.errors == LoginErrors(req, isEmail))
  {
    RouteAfterOtpOutcome(st, req, env, crypto, newId, now);
  }

  /** As written (not awaited), the OTP test never refuses: a valid request
      goes on to find-or-create whatever code it carries, even when no code
      is stored for the mobile at all. */
  lemma AsWrittenRouteIgnoresOtp(st: AuthState, req: LoginRequest, isEmail: string -> bool, env: AuthEnv,
                                 crypto: Crypto, newId: Id, now: int)
    requires LoginErrors(req, isEmail) == []
    ensures LoginRouteSpec(st, req, isEmail, env, crypto, newId, now, false) == RouteAfterOtp(st, req, env, crypto, newId, now)
    ensures LoginRouteSpec(st, req, isEmail, env, crypto, newId, now, false).1 != Failed(400, InvalidOtp)
  {
    RouteAfterOtpOutcome(st, req, env, crypto, newId, now);
  }

  /** Past the OTP test the route answers 400 only for a wrong password, 500
      for a failing save or signature, and otherwise logs in. */
  lemma RouteAfterOtpOutcome(st: AuthState, req: LoginRequest, env: AuthEnv, crypto: Crypto, newId: Id, now: int)
    ensures var resp := RouteAfterOtp(st, req, env, crypto, newId, now).1;
      resp.LoginOk? || resp == Failed(500, ServerError) || resp == Failed(400, InvalidCredentials)
  {
    var found := FindByEmail(st.users, req.email);
    if found.None? {
      RouteNewOutcome(st, req, env, crypto, newId, now);
    } else {
      RouteKnownOutcome(st, found.value, req, env, crypto);
    }
  }

  lemma RouteNewOutcome(st: AuthState, req: LoginRequest, env: AuthEnv, crypto: Crypto, newId: Id, now: int)
    ensures var resp := RouteNew(st, req, env, crypto, newId, now).1;
      resp.LoginOk? || resp == Failed(500, ServerError)
  {
    var f := RouteUserFields(req, crypto);
    var ins := Insert(st.users, newId, f, now);
    if ins.Ok? {
      RouteFinishOutcome(ins.value, st.otp, NewUser(newId, f, now).value, req.mobile, env);
    }
  }

  lemma RouteKnownOutcome(st: AuthState, k: nat, req: LoginRequest, env: AuthEnv, crypto: Crypto)
    requires k < |st.users|
    ensures var resp := RouteKnown(st, k, req, env, crypto).1;
      resp.LoginOk? || resp == Failed(500, ServerError) || resp == Failed(400, InvalidCredentials)
  {
    RouteFinishOutcome(st.users, st.otp, st.users[k], req.mobile, env);
  }

  lemma RouteFinishOutcome(users: seq<UserRecord>, otp: FallbackState, u: UserRecord, mobile: string, env: AuthEnv)
    ensures var resp := RouteFinish(users, otp, u, mobile, env).1;
      resp.LoginOk? || resp == Failed(500, ServerError)
  {
  }

  /** Awaited, the test refuses every code that does not verify with 400 and
      changes nothing, and lets exactly the verifying ones through. */
  lemma AwaitedRouteChecksOtp(st: AuthState, req: LoginRequest, isEmail: string -> bool, env: AuthEnv,
                              crypto: Crypto, newId: Id, now: int)
    requires LoginErrors(req, isEmail) == []
    ensures !Verifies(st.otp, req.mobile, req.otp) ==>
      LoginRouteSpec(st, req, isEmail, env, crypto, newId, now, true) == (st, Failed(400, InvalidOtp))
    ensures Verifies(st.otp, req.mobile, req.otp) ==>
      LoginRouteSpec(st, req, isEmail, env, crypto, newId, now, true) == RouteAfterOtp(st, req, env, crypto, newId, now)
  {
  }

  /** An unknown email creates a verified user with the hash at cost 12, the
      request's mobile and no profile, appended to the collection, which stays
      valid. */
  lemma RouteCreatesUser(st: AuthState, req: LoginRequest, env: AuthEnv, crypto: Crypto, newId: Id, now: int)
    requires CollectionValid(st.users)
    requires FindByEmail(st.users, req.email).None?
    requires Insert(st.users, newId, RouteUserFields(req, crypto), now).Ok?
    ensures var u := NewUser(newId, RouteUserFields(req, crypto), now).value;
      var r := RouteAfterOtp(st, req, env, crypto, newId, now);
      r.0.users == st.users + [u] && CollectionValid(r.0.users)
      && u.isVerified && u.password == crypto.hash(req.password, 12) && u.mobile == req.mobile
      && u.profile == NoProfile && u.email == NormalizeEmail(req.email)
  {
    InsertKeepsValid(st.users, newId, RouteUserFields(req, crypto), now);
  }

  lemma RouteKnownFacts(st: AuthState, k: nat, req: LoginRequest, env: AuthEnv, crypto: Crypto)
    requires k < |st.users|
    ensures var r := RouteKnown(st, k, req, env, crypto);
      r.0.users == st.users
      && (!crypto.compare(req.password, st.users[k].password) ==> r == (st, Failed(400, InvalidCredentials)))
      && (crypto.compare(req.password, st.users[k].password) ==> r.0.otp == Deleted(st.otp, req.mobile))
  {
  }

  /** For a known email the stored users are never changed: a wrong password
      is 400 with the OTP kept; otherwise the OTP is deleted. Unlike the
      controller, the stored mobile is not replaced. */
  lemma RouteKnownUserUnchanged(st: AuthState, req: LoginRequest, env: AuthEnv, crypto: Crypto, newId: Id, now: int)
    requires FindByEmail(st.users, req.email).Some?
    ensures var k := FindByEmail(st.users, req.email).value;
      var r := RouteAfterOtp(st, req, env, crypto, newId, now);
      r.0.users == st.users
      && (!crypto.compare(req.password, st.users[k].password) ==> r == (st, Failed(400, InvalidCredentials)))
      && (crypto.compare(req.password, st.users[k].password) ==> r.0.otp == Deleted(st.otp, req.mobile))
  {
    var k := FindByEmail(st.users, req.email).value;
    RouteKnownFacts(st, k, req, env, crypto);
  }

  /** What a successful route login hands out: the OTP of `mobile` deleted,
      a token whose only claim is the user id, signed with JWT_SECRET, and
      the id, email and mobile of the stored user at `k`. */
  predicate RouteShape(r: (AuthState, RouteResponse), otp: FallbackState, mobile: string, env: AuthEnv, k: nat) {
    r.1.LoginOk? ==>
      r.0.otp == Deleted(otp, mobile)
      && r.1.token.claims == Claims(Some(r.1.user.id), None, None)
      && Truthy(env.jwtSecret) && r.1.token.secret == env.jwtSecret.value
      && k < |r.0.users|
      && r.1.user == RouteUser(r.0.users[k].id, r.0.users[k].email, r.0.users[k].mobile)
  }

  lemma RouteNewShape(st: AuthState, req: LoginRequest, env: AuthEnv, crypto: Crypto, newId: Id, now: int)
    ensures RouteShape(RouteNew(st, req, env, crypto, newId, now), st.otp, req.mobile, env, |st.users|)
  {
    var f := RouteUserFields(req, crypto);
    var ins := Insert(st.users, newId, f, now);
    if ins.Ok? {
      assert ins.value[|st.users|] == NewUser(newId, f, now).value;
    }
  }

  lemma RouteKnownShape(st: AuthState, k: nat, req: LoginRequest, env: AuthEnv, crypto: Crypto)
    requires k < |st.users|
    ensures RouteShape(RouteKnown(st, k, req, env, crypto), st.otp, req.mobile, env, k)
  {
  }

  /** A successful route login leaves no code that verifies for the mobile,
      carries a token with the user id as its only claim, signed with
      JWT_SECRET, and answers with a stored user's id, email and mobile. */
  lemma RouteSuccess(st: AuthState, req: LoginRequest, env: AuthEnv, crypto: Crypto, newId: Id, now: int, x: string)
    ensures var r := RouteAfterOtp(st, req, env, crypto, newId, now);
      r.1.LoginOk? ==>
        !Verifies(r.0.otp, req.mobile, x)
        && r.1.token.claims == Claims(Some(r.1.user.id), None, None)
        && Truthy(env.jwtSecret) && r.1.token.secret == env.jwtSecret.value
        && (exists i :: 0 <= i < |r.0.users| && RouteUser(r.0.users[i].id, r.0.users[i].email, r.0.users[i].mobile) == r.1.user)
  {
    DeleteOnlyItsMobile(st.otp, req.mobile, req.mobile, x);
    var r := RouteAfterOtp(st, req, env, crypto, newId, now);
    var found := FindByEmail(st.users, req.email);
    var k: nat;
    if found.None? {
      k := |st.users|;
      RouteNewShape(st, req, env, crypto, newId, now);
    } else {
      k := found.value;
      RouteKnownShape(st, k, req, env, crypto);
    }
    assert RouteShape(r, st.otp, req.mobile, env, k);
    if r.1.LoginOk? {
      assert RouteUser(r.0.users[k].id, r.0.users[k].email, r.0.users[k].mobile) == r.1.user;
    }
  }
}
