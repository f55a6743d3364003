/** The handlers of backend/controllers/authController.js: `sendOTP`,
    `login`, `refreshToken` and `verifyOTP`, over the users collection and the
    OTP store. bcrypt is a pair of function parameters; a JWT is represented
    by the claims, secret and lifetime it was signed with, and `jwt.verify` is
    a function parameter. */
module AuthController {
  import opened Wrappers
  import opened Strings
  import opened UserSchema
  import opened Otp
  import opened Sms

  /** The process environment the handlers read. */
  datatype AuthEnv = AuthEnv(
    nodeEnv: Option<string>,
    jwtSecret: Option<string>,
    jwtRefreshSecret: Option<string>,
    jwtExpire: Option<string>,
    jwtRefreshExpire: Option<string>,
    bcryptRounds: Option<string>)

  /** The first of two environment values that is set and non-empty, as
      JavaScript's `||` picks it. */
  function OrElse(a: Option<string>, b: Option<string>): (r: Option<string>)
    ensures Truthy(a) ==> r == a
    ensures !Truthy(a) ==> r == b
  {
    if Truthy(a) then a else b
  }

  /** The text, or the fallback when it is absent or empty, as JavaScript's
      `||` chooses between strings. */
  function OrDefault(a: Option<string>, fallback: string): (r: string)
    ensures Truthy(a) ==> r == a.value
    ensures !Truthy(a) ==> r == fallback
  {
    if Truthy(a) then a.value else fallback
  }

  /** `parseInt(process.env.BCRYPT_ROUNDS) || 12`: NaN and 0 both fall back. */
  function HashRounds(env: AuthEnv): (n: int)
    ensures n != 0
  {
    var p := if env.bcryptRounds.Some? then ParseInt(env.bcryptRounds.value) else None;
    if p.Some? && p.value != 0 then p.value else 12
  }

  /** The password hashing library: a hash of a password at a cost, and the
      check of a password against a hash. */
  datatype Crypto = Crypto(hash: (string, int) -> string, compare: (string, string) -> bool)

  /** The payload of a token; an absent claim is `None`. */
  datatype Claims = Claims(userId: Option<Id>, email: Option<string>, typ: Option<string>)

  datatype Token = Token(claims: Claims, secret: string, expiresIn: string)

  /** `jwt.sign`: throws when the secret is unset or empty. */
  function Sign(claims: Claims, secret: Option<string>, expiresIn: string): (t: Option<Token>)
    ensures t.Some? <==> Truthy(secret)
    ensures t.Some? ==> t.value.claims == claims && t.value.secret == secret.value && t.value.expiresIn == expiresIn
  {
    if Truthy(secret) then Some(Token(claims, secret.value, expiresIn)) else None
  }

  /** The access token: {userId, email, type 'access'}, JWT_SECRET, JWT_EXPIRE or 24h. */
  function AccessToken(env: AuthEnv, u: UserRecord): Option<Token> {
    Sign(Claims(Some(u.id), Some(u.email), Some("access")), env.jwtSecret, OrDefault(env.jwtExpire, "24h"))
  }

  /** The refresh token: {userId, type 'refresh'}, JWT_REFRESH_SECRET or else
      JWT_SECRET, JWT_REFRESH_EXPIRE or 7d. */
  function RefreshTokenOf(env: AuthEnv, u: UserRecord): Option<Token> {
    Sign(Claims(Some(u.id), None, Some("refresh")), OrElse(env.jwtRefreshSecret, env.jwtSecret),
         OrDefault(env.jwtRefreshExpire, "7d"))
  }

  /** The user as the responses show it: every stored field except the
      password hash. */
  datatype UserView = UserView(
    id: Id, email: string, mobile: string, isVerified: bool,
    createdAt: int, lastLogin: Option<int>, profile: Profile)

  function ViewOf(u: UserRecord): UserView {
    UserView(u.id, u.email, u.mobile, u.isVerified, u.createdAt, u.lastLogin, u.profile)
  }

  const ValidationMessage := "Validation error"
  const InvalidOtp := "Invalid or expired OTP"
  const InvalidCredentials := "Invalid credentials"
  const InternalError := "Internal server error"
  const SmsFailed := "Failed to send SMS. Please try again."
  const RefreshRequired := "Refresh token is required"
  const InvalidTokenType := "Invalid token type"
  const UserNotFound := "User not found"
  const InvalidRefresh := "Invalid refresh token"

  datatype AuthResponse =
    | ValidationError
    | Failure(status: int, message: string)
    /** 'OTP sent successfully', with the code outside production. */
    | OtpSent(otp: Option<string>)
    | LoggedIn(token: Token, refreshToken: Token, user: UserView)
    | Refreshed(token: Token)
    | OtpVerified

  function Status(r: AuthResponse): int {
    match r
    case ValidationError => 400
    case Failure(s, _) => s
    case _ => 200
  }

  // ---------------------------------------------------------------------
  // sendOTP

  function SmsText(code: string): string {
    "Your Trace Lens OTP is: " + code + ". Valid for 5 minutes. Do not share with anyone."
  }

  /** The response, the OTP store afterwards, and the SMS text handed to
      `sendSMS` (only in production). */
  function SendOtpSpec(st: FallbackState, validationOk: bool, mobile: string, draw: nat, env: AuthEnv, sms: SmsOutcome)
    : (FallbackState, AuthResponse, Option<string>)
    requires draw < 900000
  {
    if !validationOk then (st, ValidationError, None)
    else
      var code := CodeOf(draw);
      var st2 := Stored(st, OtpKey(mobile), code);
      if env.nodeEnv == Some("production") then
        (st2, if sms.SmsRejected? then Failure(500, SmsFailed) else OtpSent(None), Some(SmsText(code)))
      else (st2, OtpSent(Some(code)), None)
  }

  method SendOtp(otps: OtpService, validationOk: bool, mobile: string, draw: nat, env: AuthEnv, sms: SmsOutcome)
    returns (resp: AuthResponse, smsText: Option<string>)
    requires draw < 900000
    modifies otps
    ensures (otps.State(), resp, smsText) == SendOtpSpec(old(otps.State()), validationOk, mobile, draw, env, sms)
  {
    if !validationOk {
      return ValidationError, None;
    }
    var otp := otps.GenerateOTP(mobile, draw);
    if env.nodeEnv == Some("production") {
      smsText := Some(SmsText(otp));
      if sms.SmsRejected? {
        return Failure(500, SmsFailed), smsText;
      }
      return OtpSent(None), smsText;
    }
    return OtpSent(Some(otp)), None;
  }

  /** A validated request stores a fresh code that then verifies; the code
      is in the response exactly outside production, and in production it
      goes out by SMS instead. */
  lemma SendOtpStoresCode(st: FallbackState, mobile: string, draw: nat, env: AuthEnv, sms: SmsOutcome)
    requires draw < 900000
    ensures var r := SendOtpSpec(st, true, mobile, draw, env, sms);
      Verifies(r.0, mobile, CodeOf(draw))
      && (r.1 == OtpSent(Some(CodeOf(draw))) <==> env.nodeEnv != Some("production"))
      && (env.nodeEnv == Some("production") ==> r.2 == Some(SmsText(CodeOf(draw))) && r.1 != OtpSent(Some(CodeOf(draw))))
  {
    assert IsDigitsOfLength(CodeOf(draw), 6);
  }

  /** As written, `sendSMS` is called detached from its service, so in
      production every validated request answers 500 although the code was
      stored. */
  lemma AsWrittenSendOtpFailsInProduction(st: FallbackState, mobile: string, draw: nat, env: AuthEnv, result: SendResult)
    requires draw < 900000 && env.nodeEnv == Some("production")
    ensures var r := SendOtpSpec(st, true, mobile, draw, env, CallSendSms(false, result));
      r.1 == Failure(500, SmsFailed) && Verifies(r.0, mobile, CodeOf(draw))
  {
    assert CodeOf(draw) != "";
  }

  /** Called on the service object, `sendSMS` always resolves, so a validated
      production request answers 200 without the code. */
  lemma CorrectedSendOtpSucceedsInProduction(st: FallbackState, mobile: string, draw: nat, env: AuthEnv, result: SendResult)
    requires draw < 900000 && env.nodeEnv == Some("production")
    ensures SendOtpSpec(st, true, mobile, draw, env, CallSendSms(true, result)).1 == OtpSent(None)
  {
  }

  // ---------------------------------------------------------------------
  // login

  datatype LoginRequest = LoginRequest(email: string, password: string, mobile: string, otp: string)

  datatype AuthState = AuthState(users: seq<UserRecord>, otp: FallbackState)

  /** The document a first login creates. */
  function NewUserFields(req: LoginRequest, env: AuthEnv, crypto: Crypto): UserFields {
    UserFields(Some(req.email), Some(crypto.hash(req.password, HashRounds(env))), Some(req.mobile), Some(true),
               Some(Profile(Some(BeforeFirst(req.email, '@')), None, None)))
  }

  /** The common tail of a login: delete the OTP, save `lastLogin`, sign both
      tokens. A signing failure (no secret) is a 500 after those writes. */
  function Finish(users: seq<UserRecord>, otp: FallbackState, u: UserRecord, mobile: string, env: AuthEnv, now: int)
    : (AuthState, AuthResponse)
  {
    var otp2 := Deleted(otp, mobile);
    var u2 := u.(lastLogin := Some(now));
    var saved := Update(users, u2);
    if saved.Err? then (AuthState(users, otp2), Failure(500, InternalError))
    else
      var access := AccessToken(env, u2);
      var refresh := RefreshTokenOf(env, u2);
      if access.None? || refresh.None? then (AuthState(saved.value, otp2), Failure(500, InternalError))
      else (AuthState(saved.value, otp2), LoggedIn(access.value, refresh.value, ViewOf(u2)))
  }

  /** `login` for an email nobody has yet: create the user, then `Finish`. */
  function LoginNew(st: AuthState, req: LoginRequest, env: AuthEnv, crypto: Crypto, newId: Id, now: int)
    : (AuthState, AuthResponse)
  {
    var f := NewUserFields(req, env, crypto);
    var ins := Insert(st.users, newId, f, now);
    if ins.Err? then (st, Failure(500, InternalError))
    else Finish(ins.value, st.otp, NewUser(newId, f, now).value, req.mobile, env, now)
  }

  /** `login` for the user at position `k`: the password, the mobile update,
      then `Finish`. */
  function LoginKnown(st: AuthState, k: nat, req: LoginRequest, env: AuthEnv, crypto: Crypto, now: int)
    : (AuthState, AuthResponse)
    requires k < |st.users|
  {
    var u := st.users[k];
    if !crypto.compare(req.password, u.password) then (st, Failure(400, InvalidCredentials))
    else if u.mobile != req.mobile then
      var u2 := u.(mobile := req.mobile);
      var upd := Update(st.users, u2);
      if upd.Err? then (st, Failure(500, InternalError))
      else Finish(upd.value, st.otp, u2, req.mobile, env, now)
    else Finish(st.users, st.otp, u, req.mobile, env, now)
  }

  /** `login`: validation, then the OTP, then find-or-create. */
  function LoginSpec(st: AuthState, validationOk: bool, req: LoginRequest, env: AuthEnv, crypto: Crypto, newId: Id, now: int)
    : (AuthState, AuthResponse)
  {
    if !validationOk then (st, ValidationError)
    else if !Verifies(st.otp, req.mobile, req.otp) then (st, Failure(400, InvalidOtp))
    else
      var found := FindByEmail(st.users, req.email);
      if found.None? then LoginNew(st, req, env, crypto, newId, now)
      else LoginKnown(st, found.value, req, env, crypto, now)
  }

  /** Deletes the OTP, saves `lastLogin` and signs the tokens. */
  method FinishLogin(users: UserCollection, otps: OtpService, user: UserRecord, mobile: string, env: AuthEnv, now: int)
    returns (resp: AuthResponse)
    modifies users, otps
    ensures (AuthState(users.users, otps.State()), resp) == Finish(old(users.users), old(otps.State()), user, mobile, env, now)
  {
    otps.DeleteOTP(mobile);
    var u := user.(lastLogin := Some(now));
    var ok := users.Save(u);
    if !ok {
      return Failure(500, InternalError);
    }
    var access := AccessToken(env, u);
    var refresh := RefreshTokenOf(env, u);
    if access.None? || refresh.None? {
      return Failure(500, InternalError);
    }
    return LoggedIn(access.value, refresh.value, ViewOf(u));
  }

  method LoginNewUser(users: UserCollection, otps: OtpService, req: LoginRequest, env: AuthEnv,
                      crypto: Crypto, newId: Id, now: int) returns (resp: AuthResponse)
    modifies users, otps
    ensures (AuthState(users.users, otps.State()), resp)
      == LoginNew(AuthState(old(users.users), old(otps.State())), req, env, crypto, newId, now)
  {
    var created := users.Create(newId, NewUserFields(req, env, crypto), now);
    if created.Err? {
      return Failure(500, InternalError);
    }
    resp := FinishLogin(users, otps, created.value, req.mobile, env, now);
  }

  method LoginKnownUser(users: UserCollection, otps: OtpService, k: nat, req: LoginRequest, env: AuthEnv,
                        crypto: Crypto, now: int) returns (resp: AuthResponse)
    requires k < |users.users|
    modifies users, otps
    ensures (AuthState(users.users, otps.State()), resp)
      == LoginKnown(AuthState(old(users.users), old(otps.State())), k, req, env, crypto, now)
  {
    var user := users.users[k];
    if !crypto.compare(req.password, user.password) {
      return Failure(400, InvalidCredentials);
    }
    if user.mobile != req.mobile {
      user := user.(mobile := req.mobile);
      var ok := users.Save(user);
      if !ok {
        return Failure(500, InternalError);
      }
    }
    resp := FinishLogin(users, otps, user, req.mobile, env, now);
  }

  method Login(users: UserCollection, otps: OtpService, validationOk: bool, req: LoginRequest, env: AuthEnv,
               crypto: Crypto, newId: Id, now: int) returns (resp: AuthResponse)
    modifies users, otps
    ensures (AuthState(users.users, otps.State()), resp)
      == LoginSpec(AuthState(old(users.users), old(otps.State())), validationOk, req, env, crypto, newId, now)
  {
    if !validationOk {
      return ValidationError;
    }
    var isOtpValid := otps.VerifyOTP(req.mobile, req.otp);
    if !isOtpValid {
      return Failure(400, InvalidOtp);
    }
    var found := FindByEmail(users.users, req.email);
    if found.None? {
      resp := LoginNewUser(users, otps, req, env, crypto, newId, now);
    } else {
      resp := LoginKnownUser(users, otps, found.value, req, env, crypto, now);
    }
  }

  /** A wrong or missing code is refused with 400 before any user is looked
      at: no user is created or changed and the OTP store is untouched. */
  lemma LoginChecksOtpFirst(st: AuthState, req: LoginRequest, env: AuthEnv, crypto: Crypto, newId: Id, now: int)
    requires !Verifies(st.otp, req.mobile, req.otp)
    ensures LoginSpec(st, true, req, env, crypto, newId, now) == (st, Failure(400, InvalidOtp))
  {
  }

  /** A known email with a wrong password is refused with 400 and the OTP
      stays usable. */
  lemma WrongPasswordKeepsOtp(st: AuthState, req: LoginRequest, env: AuthEnv, crypto: Crypto, newId: Id, now: int)
    requires Verifies(st.otp, req.mobile, req.otp)
    requires FindByEmail(st.users, req.email).Some?
    requires !crypto.compare(req.password, st.users[FindByEmail(st.users, req.email).value].password)
    ensures var r := LoginSpec(st, true, req, env, crypto, newId, now);
      r.1 == Failure(400, InvalidCredentials) && r.0 == st && Verifies(r.0.otp, req.mobile, req.otp)
  {
  }

  /** What the tail does to the user at position `k` (the one being logged in). */
  lemma FinishFacts(users: seq<UserRecord>, otp: FallbackState, u: UserRecord, mobile: string, env: AuthEnv, now: int, k: nat)
    requires CollectionValid(users) && k < |users| && users[k].id == u.id && users[k].email == u.email && UserValid(u)
    ensures var r := Finish(users, otp, u, mobile, env, now);
      var u2 := u.(lastLogin := Some(now));
      r.0.otp == Deleted(otp, mobile) && CollectionValid(r.0.users) && |r.0.users| == |users|
      && r.0.users[k] == u2
      && (forall i :: 0 <= i < |users| && i != k ==> r.0.users[i] == users[i])
      && (r.1.LoggedIn? <==> Truthy(env.jwtSecret))
      && (r.1.LoggedIn? ==> r.1.token == AccessToken(env, u2).value
                            && r.1.refreshToken == RefreshTokenOf(env, u2).value && r.1.user == ViewOf(u2))
  {
    var u2 := u.(lastLogin := Some(now));
    UpdateKeepsValid(users, k, u2);
    var r := Update(users, u2).value;
    forall i | 0 <= i < |users| && i != k ensures r[i] == users[i] {
      assert users[i].id != users[k].id by {
        if i < k { } else { }
      }
    }
  }

  /** First login for an email: the new user holds the normalised email, the
      hashed password and the mobile, is verified, has its first name from
      the part of the email before the first '@', and is stamped with
      `lastLogin`; with JWT_SECRET set the login succeeds and the OTP is gone. */
  lemma LoginCreatesUser(st: AuthState, req: LoginRequest, env: AuthEnv, crypto: Crypto, newId: Id, now: int)
    requires CollectionValid(st.users)
    requires Verifies(st.otp, req.mobile, req.otp)
    requires FindByEmail(st.users, req.email).None?
    requires forall i :: 0 <= i < |st.users| ==> st.users[i].id != newId
    requires NewUser(newId, NewUserFields(req, env, crypto), now).Ok?
    ensures var r := LoginSpec(st, true, req, env, crypto, newId, now);
      |r.0.users| == |st.users| + 1 && r.0.users[..|st.users|] == st.users
      && r.0.users[|st.users|] == UserRecord(newId, NormalizeEmail(req.email), crypto.hash(req.password, HashRounds(env)),
                                             req.mobile, true, now, Some(now),
                                             Profile(Some(BeforeFirst(req.email, '@')), None, None))
      && r.0.otp == Deleted(st.otp, req.mobile)
      && (r.1.LoggedIn? <==> Truthy(env.jwtSecret))
  {
    var f := NewUserFields(req, env, crypto);
    var n := NewUser(newId, f, now).value;
    var ins := Insert(st.users, newId, f, now);
    assert ins.Ok?;
    InsertKeepsValid(st.users, newId, f, now);
    FinishFacts(ins.value, st.otp, n, req.mobile, env, now, |st.users|);
    var r := LoginSpec(st, true, req, env, crypto, newId, now);
    assert r == Finish(ins.value, st.otp, n, req.mobile, env, now);
    forall i | 0 <= i < |st.users| ensures r.0.users[i] == st.users[i] {
      assert ins.value[i] == st.users[i];
    }
  }

  /** A known user logging in with a different (valid) mobile gets the new
      mobile stored; nobody else changes. */
  lemma LoginReplacesMobile(st: AuthState, req: LoginRequest, env: AuthEnv, crypto: Crypto, newId: Id, now: int)
    requires CollectionValid(st.users)
    requires Verifies(st.otp, req.mobile, req.otp)
    requires FindByEmail(st.users, req.email).Some?
    requires var k := FindByEmail(st.users, req.email).value;
      crypto.compare(req.password, st.users[k].password) && MobileMatches(req.mobile)
    ensures var k := FindByEmail(st.users, req.email).value;
      var r := LoginSpec(st, true, req, env, crypto, newId, now);
      |r.0.users| == |st.users|
      && r.0.users[k] == st.users[k].(mobile := req.mobile, lastLogin := Some(now))
      && (forall i :: 0 <= i < |st.users| && i != k ==> r.0.users[i] == st.users[i])
      && (r.1.LoggedIn? <==> Truthy(env.jwtSecret))
  {
    var k := FindByEmail(st.users, req.email).value;
    var u := st.users[k];
    var r := LoginSpec(st, true, req, env, crypto, newId, now);
    if u.mobile != req.mobile {
      var u2 := u.(mobile := req.mobile);
      UpdateKeepsValid(st.users, k, u2);
      var upd := Update(st.users, u2).value;
      FinishFacts(upd, st.otp, u2, req.mobile, env, now, k);
      forall i | 0 <= i < |st.users| && i != k ensures upd[i] == st.users[i] {
        assert st.users[i].id != st.users[k].id by {
          if i < k { } else { }
        }
      }
    } else {
      FinishFacts(st.users, st.otp, u, req.mobile, env, now, k);
    }
  }

  /** What a successful login hands out: the OTP of `mobile` is deleted,
      the access token carries {userId, email, 'access'}, the refresh token
      {userId, 'refresh'}, both for the returned user, stamped at `now`. */
  predicate SuccessShape(r: (AuthState, AuthResponse), otp: FallbackState, mobile: string, now: int) {
    r.1.LoggedIn? ==>
      r.0.otp == Deleted(otp, mobile)
      && r.1.token.claims == Claims(Some(r.1.user.id), Some(r.1.user.email), Some("access"))
      && r.1.refreshToken.claims == Claims(Some(r.1.user.id), None, Some("refresh"))
      && r.1.user.lastLogin == Some(now)
  }

  lemma FinishSuccess(users: seq<UserRecord>, otp: FallbackState, u: UserRecord, mobile: string, env: AuthEnv, now: int)
    ensures SuccessShape(Finish(users, otp, u, mobile, env, now), otp, mobile, now)
  {
  }

  lemma LoginNewSuccess(st: AuthState, req: LoginRequest, env: AuthEnv, crypto: Crypto, newId: Id, now: int)
    ensures SuccessShape(LoginNew(st, req, env, crypto, newId, now), st.otp, req.mobile, now)
  {
    var f := NewUserFields(req, env, crypto);
    var ins := Insert(st.users, newId, f, now);
    if ins.Ok? {
      FinishSuccess(ins.value, st.otp, NewUser(newId, f, now).value, req.mobile, env, now);
    }
  }

  lemma LoginKnownSuccess(st: AuthState, k: nat, req: LoginRequest, env: AuthEnv, crypto: Crypto, now: int)
    requires k < |st.users|
    ensures SuccessShape(LoginKnown(st, k, req, env, crypto, now), st.otp, req.mobile, now)
  {
    var u := st.users[k];
    if u.mobile != req.mobile {
      var upd := Update(st.users, u.(mobile := req.mobile));
      if upd.Ok? {
        FinishSuccess(upd.value, st.otp, u.(mobile := req.mobile), req.mobile, env, now);
      }
    } else {
      FinishSuccess(st.users, st.otp, u, req.mobile, env, now);
    }
  }

  /** A successful login deletes the OTP, so no code verifies for that mobile
      afterwards; the access token carries {userId, email, 'access'}, the
      refresh token {userId, 'refresh'}, both for the returned user. */
  lemma LoginSuccess(st: AuthState, req: LoginRequest, env: AuthEnv, crypto: Crypto, newId: Id, now: int, x: string)
    ensures var r := LoginSpec(st, true, req, env, crypto, newId, now);
      r.1.LoggedIn? ==>
        !Verifies(r.0.otp, req.mobile, x)
        && r.1.token.claims == Claims(Some(r.1.user.id), Some(r.1.user.email), Some("access"))
        && r.1.refreshToken.claims == Claims(Some(r.1.user.id), None, Some("refresh"))
        && r.1.user.lastLogin == Some(now)
  {
    DeleteOnlyItsMobile(st.otp, req.mobile, req.mobile, x);
    var found := FindByEmail(st.users, req.email);
    if found.None? {
      LoginNewSuccess(st, req, env, crypto, newId, now);
    } else {
      LoginKnownSuccess(st, found.value, req, env, crypto, now);
    }
    assert SuccessShape(LoginSpec(st, true, req, env, crypto, newId, now), st.otp, req.mobile, now);
  }

  /** Logins keep the collection valid: every user passes the schema and
      emails and ids stay unique. */
  lemma LoginKeepsValid(st: AuthState, validationOk: bool, req: LoginRequest, env: AuthEnv, crypto: Crypto, newId: Id, now: int)
    requires CollectionValid(st.users)
    ensures CollectionValid(LoginSpec(st, validationOk, req, env, crypto, newId, now).0.users)
  {
    if validationOk && Verifies(st.otp, req.mobile, req.otp) {
      if FindByEmail(st.users, req.email).None? {
        LoginNewKeepsValid(st, req, env, crypto, newId, now);
      } else {
        LoginExistingKeepsValid(st, req, env, crypto, newId, now);
      }
    }
  }

  lemma LoginNewKeepsValid(st: AuthState, req: LoginRequest, env: AuthEnv, crypto: Crypto, newId: Id, now: int)
    requires CollectionValid(st.users) && Verifies(st.otp, req.mobile, req.otp)
    requires FindByEmail(st.users, req.email).None?
    ensures CollectionValid(LoginSpec(st, true, req, env, crypto, newId, now).0.users)
  {
    var f := NewUserFields(req, env, crypto);
    InsertKeepsValid(st.users, newId, f, now);
    var ins := Insert(st.users, newId, f, now);
    if ins.Ok? {
      FinishFacts(ins.value, st.otp, NewUser(newId, f, now).value, req.mobile, env, now, |st.users|);
    }
  }

  lemma LoginExistingKeepsValid(st: AuthState, req: LoginRequest, env: AuthEnv, crypto: Crypto, newId: Id, now: int)
    requires CollectionValid(st.users) && Verifies(st.otp, req.mobile, req.otp)
    requires FindByEmail(st.users, req.email).Some?
    ensures CollectionValid(LoginSpec(st, true, req, env, crypto, newId, now).0.users)
  {
    var k := FindByEmail(st.users, req.email).value;
    var u := st.users[k];
    if crypto.compare(req.password, u.password) {
      if u.mobile != req.mobile {
        var u2 := u.(mobile := req.mobile);
        UpdateKeepsValid(st.users, k, u2);
        if UserValid(u2) {
          FinishFacts(Update(st.users, u2).value, st.otp, u2, req.mobile, env, now, k);
        }
      } else {
        FinishFacts(st.users, st.otp, u, req.mobile, env, now, k);
      }
    }
  }

  // ---------------------------------------------------------------------
  // refreshToken

  /** `refreshToken`: `verify(token, secret)` is what `jwt.verify` decodes, or
      None when it throws. */
  function RefreshToken(users: seq<UserRecord>, token: Option<string>, env: AuthEnv,
                        verify: (string, string) -> Option<Claims>): (r: AuthResponse)
    ensures !Truthy(token) ==> r == Failure(400, RefreshRequired)
    ensures r.Refreshed? ==> exists i :: 0 <= i < |users| && AccessToken(env, users[i]) == Some(r.token)
    ensures r.Refreshed? ==> r.token.claims.typ == Some("access")
  {
    if !Truthy(token) then Failure(400, RefreshRequired)
    else
      var secret := OrElse(env.jwtRefreshSecret, env.jwtSecret);
      var decoded := if Truthy(secret) then verify(token.value, secret.value) else None;
      if decoded.None? then Failure(401, InvalidRefresh)
      else if decoded.value.typ != Some("refresh") then Failure(400, InvalidTokenType)
      else
        var found := FindById(users, decoded.value.userId);
        if found.None? then Failure(404, UserNotFound)
        else
          var t := AccessToken(env, users[found.value]);
          if t.None? then Failure(401, InvalidRefresh) else Refreshed(t.value)
  }

  /** The error answers in their order: no token 400, a token that does not
      verify 401, a token that is not a refresh token 400, an unknown user 404. */
  lemma RefreshTokenErrors(users: seq<UserRecord>, token: string, env: AuthEnv, verify: (string, string) -> Option<Claims>)
    requires token != ""
    ensures var secret := OrElse(env.jwtRefreshSecret, env.jwtSecret);
      var r := RefreshToken(users, Some(token), env, verify);
      (!Truthy(secret) || verify(token, secret.value).None? ==> r == Failure(401, InvalidRefresh))
      && (Truthy(secret) && verify(token, secret.value).Some? && verify(token, secret.value).value.typ != Some("refresh")
          ==> r == Failure(400, InvalidTokenType))
      && ((Truthy(secret) && verify(token, secret.value).Some? && verify(token, secret.value).value.typ == Some("refresh")
           && FindById(users, verify(token, secret.value).value.userId).None?) ==> r == Failure(404, UserNotFound))
  {
  }

  /** After a successful login, the user at position `k` is the one whose
      tokens were handed out. */
  predicate LoggedInAt(r: (AuthState, AuthResponse), env: AuthEnv, k: nat) {
    r.1.LoggedIn? ==>
      k < |r.0.users| && r.0.users[k].id == r.1.user.id
      && AccessToken(env, r.0.users[k]) == Some(r.1.token)
      && RefreshTokenOf(env, r.0.users[k]) == Some(r.1.refreshToken)
  }

  lemma LoginNewAt(st: AuthState, req: LoginRequest, env: AuthEnv, crypto: Crypto, newId: Id, now: int)
    requires CollectionValid(st.users)
    ensures LoggedInAt(LoginNew(st, req, env, crypto, newId, now), env, |st.users|)
  {
    var f := NewUserFields(req, env, crypto);
    var ins := Insert(st.users, newId, f, now);
    if ins.Ok? {
      InsertKeepsValid(st.users, newId, f, now);
      FinishFacts(ins.value, st.otp, NewUser(newId, f, now).value, req.mobile, env, now, |st.users|);
    }
  }

  lemma LoginKnownAt(st: AuthState, k: nat, req: LoginRequest, env: AuthEnv, crypto: Crypto, now: int)
    requires CollectionValid(st.users) && k < |st.users|
    ensures LoggedInAt(LoginKnown(st, k, req, env, crypto, now), env, k)
  {
    var u := st.users[k];
    if u.mobile != req.mobile {
      var u2 := u.(mobile := req.mobile);
      UpdateKeepsValid(st.users, k, u2);
      if UserValid(u2) {
        FinishFacts(Update(st.users, u2).value, st.otp, u2, req.mobile, env, now, k);
      }
    } else {
      FinishFacts(st.users, st.otp, u, req.mobile, env, now, k);
    }
  }

  lemma LoginUserAt(st: AuthState, req: LoginRequest, env: AuthEnv, crypto: Crypto, newId: Id, now: int) returns (k: nat)
    requires CollectionValid(st.users)
    ensures LoggedInAt(LoginSpec(st, true, req, env, crypto, newId, now), env, k)
  {
    var found := FindByEmail(st.users, req.email);
    if found.None? {
      k := |st.users|;
      LoginNewAt(st, req, env, crypto, newId, now);
    } else {
      k := found.value;
      LoginKnownAt(st, k, req, env, crypto, now);
    }
  }

  /** A refresh token of a stored user that verifies buys that user's access token. */
  lemma RefreshFindsUser(users: seq<UserRecord>, k: nat, env: AuthEnv, token: string, verify: (string, string) -> Option<Claims>)
    requires CollectionValid(users) && k < |users| && token != ""
    requires AccessToken(env, users[k]).Some? && RefreshTokenOf(env, users[k]).Some?
    requires verify(token, RefreshTokenOf(env, users[k]).value.secret) == Some(RefreshTokenOf(env, users[k]).value.claims)
    ensures RefreshToken(users, Some(token), env, verify) == Refreshed(AccessToken(env, users[k]).value)
  {
    var j := FindById(users, Some(users[k].id));
    assert j.Some?;
    assert j.value == k;
  }

  /** The refresh token a login hands out, once it verifies, buys the same
      access token from the users the login left behind. */
  lemma LoginThenRefresh(st: AuthState, req: LoginRequest, env: AuthEnv, crypto: Crypto, newId: Id, now: int,
                         token: string, verify: (string, string) -> Option<Claims>)
    requires CollectionValid(st.users)
    requires var r := LoginSpec(st, true, req, env, crypto, newId, now);
      r.1.LoggedIn? && token != "" && verify(token, r.1.refreshToken.secret) == Some(r.1.refreshToken.claims)
    ensures var r := LoginSpec(st, true, req, env, crypto, newId, now);
      RefreshToken(r.0.users, Some(token), env, verify) == Refreshed(r.1.token)
  {
    var r := LoginSpec(st, true, req, env, crypto, newId, now);
    LoginKeepsValid(st, true, req, env, crypto, newId, now);
    var k := LoginUserAt(st, req, env, crypto, newId, now);
    RefreshFindsUser(r.0.users, k, env, token, verify);
  }

  // ---------------------------------------------------------------------
  // verifyOTP

  /** The `verifyOTP` endpoint: checks the code and deletes nothing. */
  method VerifyOtp(otps: OtpService, validationOk: bool, mobile: string, otp: string) returns (resp: AuthResponse)
    ensures resp == OtpVerified <==> validationOk && Verifies(otps.State(), mobile, otp)
    ensures resp != OtpVerified ==> resp == ValidationError || resp == Failure(400, InvalidOtp)
    ensures !validationOk ==> resp == ValidationError
  {
    if !validationOk {
      return ValidationError;
    }
    var isValid := otps.VerifyOTP(mobile, otp);
    if isValid {
      return OtpVerified;
    }
    return Failure(400, InvalidOtp);
  }

  /** Since the endpoint leaves the store alone, a code it accepts still gets
      a following login past the OTP check. */
  lemma VerifiedCodeStillLogsIn(st: AuthState, req: LoginRequest, env: AuthEnv, crypto: Crypto, newId: Id, now: int)
    requires Verifies(st.otp, req.mobile, req.otp)
    ensures LoginSpec(st, true, req, env, crypto, newId, now).1 != Failure(400, InvalidOtp)
  {
    var found := FindByEmail(st.users, req.email);
    if found.None? {
      var ins := Insert(st.users, newId, NewUserFields(req, env, crypto), now);
      if ins.Ok? {
        FinishNeverInvalidOtp(ins.value, st.otp, NewUser(newId, NewUserFields(req, env, crypto), now).value, req.mobile, env, now);
      }
    } else {
      var u := st.users[found.value];
      if u.mobile != req.mobile {
        var upd := Update(st.users, u.(mobile := req.mobile));
        if upd.Ok? {
          FinishNeverInvalidOtp(upd.value, st.otp, u.(mobile := req.mobile), req.mobile, env, now);
        }
      } else {
        FinishNeverInvalidOtp(st.users, st.otp, u, req.mobile, env, now);
      }
    }
  }

  lemma FinishNeverInvalidOtp(users: seq<UserRecord>, otp: FallbackState, u: UserRecord, mobile: string, env: AuthEnv, now: int)
    ensures Finish(users, otp, u, mobile, env, now).1 != Failure(400, InvalidOtp)
  {
  }
}
