/** Request validation middleware: the express-validator rule chains and the
    rule sets per endpoint, `createValidation` and `handleValidationErrors`,
    the file-batch check `validateFileUpload`, and the XSS sanitiser
    `sanitizeInput`. */
module Validation {
  import opened Wrappers
  import opened Strings
  import opened Json
  import Upload
  import ImageController

  // ---------------------------------------------------------------------
  // Field values as the validators see them

  /** Where a chain reads its field: `body(..)`, `param(..)` or `query(..)`. */
  datatype Location = Body | Param | Query

  /** The parts of an Express request the validators read. */
  datatype Request = Request(body: Option<Value>, params: map<string, string>, query: Option<Value>)

  /** `container[key]` on a parsed body or query; anything but an object has
      no such member. */
  function Member(container: Option<Value>, key: string): Option<Value> {
    if container.Some? && container.value.Obj? then Get(container.value.fields, key) else None
  }

  function FieldValue(req: Request, loc: Location, field: string): (v: Option<Value>)
    ensures loc == Param ==> (v.Some? <==> field in req.params)
  {
    match loc
      case Body => Member(req.body, field)
      case Query => Member(req.query, field)
      case Param => if field in req.params then Some(Str(req.params[field])) else None
  }

  /** The string a standard validator is given: `undefined` and `null` read as
      '', a boolean or number as `String(v)`, an object as '[object Object]',
      and a non-empty array as the string of its first element. */
  function Text(v: Option<Value>): string {
    if v.None? then "" else ValueText(v.value, true)
  }

  function ValueText(v: Value, deep: bool): string {
    match v
      case Null => ""
      case Bool(b) => if b then "true" else "false"
      case Num(n) => IntToString(n)
      case Str(s) => s
      case Obj(_) => "[object Object]"
      case Arr(items) => if deep && items != [] then ValueText(items[0], false) else JoinedText(items)
  }

  /** The text of an array as JavaScript renders it: the elements' texts
      joined by ',', with `null` read as ''. */
  function JoinedText(items: seq<Value>): string
    decreases items
  {
    if items == [] then ""
    else
      var first := match items[0]
        case Null => ""
        case Arr(xs) => JoinedText(xs)
        case _ => ValueText(items[0], false);
      if |items| == 1 then first else first + "," + JoinedText(items[1..])
  }

  // ---------------------------------------------------------------------
  // Validators and chains

  /** The library functions the model leaves uninterpreted: validator.js's
      `isEmail` and `isMongoId`, and the `normalizeEmail` sanitiser. */
  datatype Library = Library(isEmail: string -> bool, isMongoId: string -> bool, normalizeEmail: string -> string)

  datatype Validator =
    | IsEmail
    | MinLength(min: nat)
    | DigitsExactly(count: nat)
    | IsMongoId
    | IntBetween(lo: int, hi: int)
    | OneOf(options: seq<string>)
    | IsBoolean
    | NotEmpty
    | ArrayBetween(min: nat, max: nat)
    | AllObjectIds

  /** A validator and the message its failure reports (for the custom
      ObjectId check, the message of the error it throws). */
  datatype Check = Check(validator: Validator, message: string)

  /** A chain: the field it reads, whether `.optional()` was called, its
      validators in order, and whether `.normalizeEmail()` follows them. */
  datatype Rule = Rule(location: Location, field: string, optional: bool, checks: seq<Check>, normalizes: bool)

  /** An error's message: a text, or the `TypeError` the engine raises when
      the custom check calls `every` on something that is not an array. */
  datatype Message = Says(text: string) | EngineTypeError

  /** One entry of `validationResult(req).array()`, formatted as
      {field, message, value}. */
  datatype FieldError = FieldError(field: string, message: Message, value: Option<Value>)

  /** validator.js `isInt` with its default leading-zero policy: an optional
      sign and one or more digits. */
  predicate IsIntText(s: string) {
    var d := Unsigned(s);
    |d| >= 1 && AllDigits(d)
  }

  function Unsigned(s: string): string {
    if |s| > 0 && (s[0] == '-' || s[0] == '+') then s[1..] else s
  }

  function IntValue(s: string): int
    requires IsIntText(s)
  {
    var v: int := DecimalValue(Unsigned(s));
    if |s| > 0 && s[0] == '-' then -v else v
  }

  const BooleanTexts := ["true", "false", "1", "0"]

  /** Whether a list element is an ObjectId text: a string of exactly 24
      hexadecimal digits. */
  predicate IsObjectIdValue(v: Value) {
    v.Str? && |v.s| == 24 && forall i :: 0 <= i < |v.s| ==> IsHexDigit(v.s[i])
  }

  predicate IsArrayOfLength(v: Option<Value>, min: nat, max: nat) {
    v.Some? && v.value.Arr? && min <= |v.value.items| <= max
  }

  /** Whether a validator rejects the field's value. */
  predicate Fails(c: Validator, v: Option<Value>, lib: Library) {
    match c
      case IsEmail => !lib.isEmail(Text(v))
      case MinLength(min) => |Text(v)| < min
      case DigitsExactly(count) => !IsDigitsOfLength(Text(v), count)
      case IsMongoId => !lib.isMongoId(Text(v))
      case IntBetween(lo, hi) => !(IsIntText(Text(v)) && lo <= IntValue(Text(v)) <= hi)
      case OneOf(options) => Text(v) !in options
      case IsBoolean => Text(v) !in BooleanTexts
      case NotEmpty => Text(v) == ""
      case ArrayBetween(min, max) => !IsArrayOfLength(v, min, max)
      case AllObjectIds =>
        !(v.Some? && v.value.Arr?) || !(forall i :: 0 <= i < |v.value.items| ==> IsObjectIdValue(v.value.items[i]))
  }

  function CheckErrors(c: Check, field: string, v: Option<Value>, lib: Library): seq<FieldError> {
    if !Fails(c.validator, v, lib) then []
    else if c.validator == AllObjectIds && !(v.Some? && v.value.Arr?) then [FieldError(field, EngineTypeError, v)]
    else [FieldError(field, Says(c.message), v)]
  }

  /** Every validator of a chain runs; each failure adds one error. */
  function ChecksErrors(cs: seq<Check>, field: string, v: Option<Value>, lib: Library): seq<FieldError> {
    if cs == [] then [] else CheckErrors(cs[0], field, v, lib) + ChecksErrors(cs[1..], field, v, lib)
  }

  /** An optional chain skips an absent field. */
  function RuleErrors(r: Rule, req: Request, lib: Library): seq<FieldError> {
    var v := FieldValue(req, r.location, r.field);
    if r.optional && v.None? then [] else ChecksErrors(r.checks, r.field, v, lib)
  }

  /** The fields with `key` given the value `v`, each in its place. */
  function SetField(fields: seq<Field>, key: string, v: Value): (r: seq<Field>)
    ensures |r| == |fields|
    ensures forall i :: 0 <= i < |fields| ==> r[i].key == fields[i].key
    decreases |fields|
  {
    if fields == [] then []
    else
      var last := fields[|fields| - 1];
      SetField(fields[..|fields| - 1], key, v) + [if last.key == key then Field(key, v) else last]
  }

  /** Reading back after `SetField`: the key has the new value when it was
      there, and every other key keeps its own. */
  lemma {:induction false} GetSetField(fields: seq<Field>, key: string, v: Value, k: string)
    ensures Get(SetField(fields, key, v), k) == if k == key && Get(fields, k).Some? then Some(v) else Get(fields, k)
    decreases |fields|
  {
    if fields != [] {
      var init := fields[..|fields| - 1];
      var r := SetField(fields, key, v);
      assert r[..|r| - 1] == SetField(init, key, v);
      GetSetField(init, key, v, k);
    }
  }

  /** The sanitiser of a chain: `.normalizeEmail()` writes the normalised
      text of a present body field back into the body. */
  function Sanitize(r: Rule, req: Request, lib: Library): (out: Request)
    ensures out.params == req.params && out.query == req.query
  {
    if r.normalizes && r.location == Body && req.body.Some? && req.body.value.Obj?
      && Get(req.body.value.fields, r.field).Some? && !Get(req.body.value.fields, r.field).value.Arr?
    then
      var fields := req.body.value.fields;
      req.(body := Some(Obj(SetField(fields, r.field, Str(lib.normalizeEmail(Text(Get(fields, r.field))))))))
    else req
  }

  /** What a sanitiser leaves: the sanitised field reads as the normalised
      text, and every other field of every location reads as before. */
  lemma SanitizeReads(r: Rule, req: Request, lib: Library, loc: Location, field: string)
    ensures !(r.normalizes && loc == Body && field == r.field && r.location == Body) ==>
      FieldValue(Sanitize(r, req, lib), loc, field) == FieldValue(req, loc, field)
    ensures r.normalizes && r.location == Body && FieldValue(req, Body, r.field).Some? && !FieldValue(req, Body, r.field).value.Arr? ==>
      FieldValue(Sanitize(r, req, lib), Body, r.field) == Some(Str(lib.normalizeEmail(Text(FieldValue(req, Body, r.field)))))
  {
    if r.normalizes && r.location == Body && req.body.Some? && req.body.value.Obj? {
      var fields := req.body.value.fields;
      if Get(fields, r.field).Some? && !Get(fields, r.field).value.Arr? {
        GetSetField(fields, r.field, Str(lib.normalizeEmail(Text(Get(fields, r.field)))), field);
        GetSetField(fields, r.field, Str(lib.normalizeEmail(Text(Get(fields, r.field)))), r.field);
      }
    }
  }

  /** The chains run one after another on the same request, each reading it
      as the earlier ones' sanitisers left it. */
  function AllErrors(rules: seq<Rule>, req: Request, lib: Library): seq<FieldError> {
    if rules == [] then [] else RuleErrors(rules[0], req, lib) + AllErrors(rules[1..], Sanitize(rules[0], req, lib), lib)
  }

  /** The request after every chain of the list has run. */
  function Sanitized(rules: seq<Rule>, req: Request, lib: Library): Request {
    if rules == [] then req else Sanitized(rules[1..], Sanitize(rules[0], req, lib), lib)
  }

  // ---------------------------------------------------------------------
  // The rules and rule sets

  const EmailRule := Rule(Body, "email", false, [Check(IsEmail, "Please provide a valid email address")], true)
  const PasswordRule := Rule(Body, "password", false, [Check(MinLength(6), "Password must be at least 6 characters long")], false)
  const MobileRule := Rule(Body, "mobile", false, [Check(DigitsExactly(10), "Mobile number must be exactly 10 digits")], false)
  const OtpRule := Rule(Body, "otp", false, [Check(DigitsExactly(6), "OTP must be exactly 6 digits")], false)
  const ObjectIdsMessage := "All imageIds must be valid MongoDB ObjectIds"

  function IdsRule(max: nat, message: string): Rule {
    Rule(Body, "imageIds", false, [Check(ArrayBetween(1, max), message), Check(AllObjectIds, ObjectIdsMessage)], false)
  }

  const ImageIdsRule := IdsRule(10, "imageIds must be an array with 1-10 items")
  const BulkImageIdsRule := IdsRule(50, "imageIds must be an array with 1-50 items")
  const ImageIdRule := Rule(Param, "imageId", false, [Check(IsMongoId, "Invalid image ID format")], false)
  const PageRule := Rule(Query, "page", true, [Check(IntBetween(1, 1000), "Page must be a number between 1 and 1000")], false)
  const LimitRule := Rule(Query, "limit", true, [Check(IntBetween(1, 100), "Limit must be a number between 1 and 100")], false)
  const SortFields := ["uploadedAt", "processedAt", "size", "originalName"]
  const SortByRule := Rule(Query, "sortBy", true, [Check(OneOf(SortFields), "Invalid sortBy field")], false)
  const SortOrderRule := Rule(Query, "sortOrder", true, [Check(OneOf(["asc", "desc"]), "Sort order must be asc or desc")], false)
  const ProcessedRule := Rule(Query, "processed", true, [Check(IsBoolean, "Processed must be true or false")], false)
  const RefreshTokenRule := Rule(Body, "refreshToken", false, [Check(NotEmpty, "Refresh token is required")], false)

  const LoginSet := [EmailRule, PasswordRule, MobileRule, OtpRule]
  const ListingSet := [PageRule, LimitRule, ProcessedRule, SortByRule, SortOrderRule]

  const RuleSets: map<string, seq<Rule>> := map[
    "sendOTP" := [MobileRule],
    "login" := LoginSet,
    "verifyOTP" := [MobileRule, OtpRule],
    "refreshToken" := [RefreshTokenRule],
    "detectFaces" := [ImageIdsRule],
    "imageDetails" := [ImageIdRule],
    "deleteImage" := [ImageIdRule],
    "bulkDeleteImages" := [BulkImageIdsRule],
    "getUserImages" := ListingSet
  ]

  // ---------------------------------------------------------------------
  // createValidation and handleValidationErrors

  datatype Middleware = Apply(rule: Rule) | HandleValidationErrors

  function Applied(rules: seq<Rule>): (ms: seq<Middleware>)
    ensures |ms| == |rules|
    ensures forall i :: 0 <= i < |rules| ==> ms[i] == Apply(rules[i])
  {
    if rules == [] then [] else [Apply(rules[0])] + Applied(rules[1..])
  }

  function CreateValidation(name: string): (r: Result<seq<Middleware>, string>)
    ensures r.Err? <==> name !in RuleSets
    ensures r.Err? ==> r.error == "Validation set '" + name + "' not found"
    ensures r.Ok? ==> |r.value| == |RuleSets[name]| + 1 && r.value[|r.value| - 1] == HandleValidationErrors
    ensures r.Ok? ==> forall i :: 0 <= i < |RuleSets[name]| ==> r.value[i] == Apply(RuleSets[name][i])
  {
    if name !in RuleSets then Err("Validation set '" + name + "' not found")
    else Ok(Applied(RuleSets[name]) + [HandleValidationErrors])
  }

  /** Either the request, as the sanitisers left it, goes on to the handler,
      or it is answered 400 {success: false, message: 'Validation error',
      errors}. */
  datatype ChainOutcome = Continue(req: Request) | Rejected(errors: seq<FieldError>)

  /** Running a middleware list over a request; `errors` is what the chains
      run so far have recorded on it. */
  function RunChain(ms: seq<Middleware>, req: Request, lib: Library, errors: seq<FieldError>): ChainOutcome {
    if ms == [] then Continue(req)
    else match ms[0]
      case Apply(r) => RunChain(ms[1..], Sanitize(r, req, lib), lib, errors + RuleErrors(r, req, lib))
      case HandleValidationErrors => if errors != [] then Rejected(errors) else RunChain(ms[1..], req, lib, errors)
  }

  lemma {:induction false} RunApplied(rules: seq<Rule>, req: Request, lib: Library, errors: seq<FieldError>)
    ensures RunChain(Applied(rules) + [HandleValidationErrors], req, lib, errors)
      == if errors + AllErrors(rules, req, lib) == [] then Continue(Sanitized(rules, req, lib))
         else Rejected(errors + AllErrors(rules, req, lib))
  {
    if rules == [] {
      assert Applied(rules) + [HandleValidationErrors] == [HandleValidationErrors];
    } else {
      var ms := Applied(rules) + [HandleValidationErrors];
      assert ms[1..] == Applied(rules[1..]) + [HandleValidationErrors];
      var next := Sanitize(rules[0], req, lib);
      RunApplied(rules[1..], next, lib, errors + RuleErrors(rules[0], req, lib));
      assert errors + RuleErrors(rules[0], req, lib) + AllErrors(rules[1..], next, lib) == errors + AllErrors(rules, req, lib);
    }
  }

  /** The middleware `createValidation(name)` returns lets the sanitised
      request through exactly when none of the set's rules records an error,
      and otherwise answers with all of them, in rule order. */
  lemma ValidationGate(name: string, req: Request, lib: Library)
    requires name in RuleSets
    ensures RunChain(CreateValidation(name).value, req, lib, [])
      == if AllErrors(RuleSets[name], req, lib) == [] then Continue(Sanitized(RuleSets[name], req, lib))
         else Rejected(AllErrors(RuleSets[name], req, lib))
  {
    RunApplied(RuleSets[name], req, lib, []);
    assert [] + AllErrors(RuleSets[name], req, lib) == AllErrors(RuleSets[name], req, lib);
  }

  // ---------------------------------------------------------------------
  // What each rule accepts

  lemma AllErrorsCons(r: Rule, rest: seq<Rule>, req: Request, lib: Library)
    ensures AllErrors([r] + rest, req, lib) == [] <==>
      RuleErrors(r, req, lib) == [] && AllErrors(rest, Sanitize(r, req, lib), lib) == []
  {
    assert ([r] + rest)[1..] == rest;
  }

  function OneCheck(r: Rule, req: Request, lib: Library): seq<FieldError>
    requires |r.checks| == 1
  {
    CheckErrors(r.checks[0], r.field, FieldValue(req, r.location, r.field), lib)
  }

  lemma SingleCheck(r: Rule, req: Request, lib: Library)
    requires |r.checks| == 1
    ensures RuleErrors(r, req, lib)
      == if r.optional && FieldValue(req, r.location, r.field).None? then [] else OneCheck(r, req, lib)
  {
    var v := FieldValue(req, r.location, r.field);
    assert ChecksErrors(r.checks, r.field, v, lib) == CheckErrors(r.checks[0], r.field, v, lib) + ChecksErrors(r.checks[1..], r.field, v, lib);
  }

  /** `mobile` must be exactly ten digits; otherwise one error with the rule's message. */
  lemma MobileRuleAccepts(req: Request, lib: Library)
    ensures var v := FieldValue(req, Body, "mobile");
      RuleErrors(MobileRule, req, lib)
        == if IsDigitsOfLength(Text(v), 10) then [] else [FieldError("mobile", Says("Mobile number must be exactly 10 digits"), v)]
  {
    SingleCheck(MobileRule, req, lib);
  }

  /** `otp` must be exactly six digits. */
  lemma OtpRuleAccepts(req: Request, lib: Library)
    ensures var v := FieldValue(req, Body, "otp");
      RuleErrors(OtpRule, req, lib)
        == if IsDigitsOfLength(Text(v), 6) then [] else [FieldError("otp", Says("OTP must be exactly 6 digits"), v)]
  {
    SingleCheck(OtpRule, req, lib);
  }

  predicate IdsValid(v: Option<Value>, max: nat) {
    IsArrayOfLength(v, 1, max) && forall i :: 0 <= i < |v.value.items| ==> IsObjectIdValue(v.value.items[i])
  }

  /** The id-list chain records nothing exactly for an array of 1..max
      ObjectId strings. A wrong length and a bad id are reported separately,
      and a value that is not an array adds the engine's `TypeError` from the
      custom check. */
  lemma IdsRuleAccepts(max: nat, message: string, req: Request, lib: Library)
    ensures var v := FieldValue(req, Body, "imageIds");
      var sizeErr := if IsArrayOfLength(v, 1, max) then [] else [FieldError("imageIds", Says(message), v)];
      var idsErr := if !(v.Some? && v.value.Arr?) then [FieldError("imageIds", EngineTypeError, v)]
                    else if forall i :: 0 <= i < |v.value.items| ==> IsObjectIdValue(v.value.items[i]) then []
                    else [FieldError("imageIds", Says(ObjectIdsMessage), v)];
      RuleErrors(IdsRule(max, message), req, lib) == sizeErr + idsErr
      && (RuleErrors(IdsRule(max, message), req, lib) == [] <==> IdsValid(v, max))
  {
    var r := IdsRule(max, message);
    var v := FieldValue(req, Body, "imageIds");
    assert r.checks[1..] == [Check(AllObjectIds, ObjectIdsMessage)];
    assert ChecksErrors(r.checks[1..], r.field, v, lib) == CheckErrors(r.checks[1], r.field, v, lib) + ChecksErrors(r.checks[2..], r.field, v, lib);
  }

  /** detectFaces takes 1-10 ids and bulk delete 1-50, in the same format. */
  lemma IdsRuleSets(req: Request, lib: Library)
    ensures AllErrors(RuleSets["detectFaces"], req, lib) == [] <==> IdsValid(FieldValue(req, Body, "imageIds"), 10)
    ensures AllErrors(RuleSets["bulkDeleteImages"], req, lib) == [] <==> IdsValid(FieldValue(req, Body, "imageIds"), 50)
  {
    IdsRuleAccepts(10, "imageIds must be an array with 1-10 items", req, lib);
    IdsRuleAccepts(50, "imageIds must be an array with 1-50 items", req, lib);
    assert AllErrors([ImageIdsRule], req, lib) == RuleErrors(ImageIdsRule, req, lib) + AllErrors([], req, lib);
    assert AllErrors([BulkImageIdsRule], req, lib) == RuleErrors(BulkImageIdsRule, req, lib) + AllErrors([], req, lib);
  }

  /** An absent optional field is never an error; a present one must pass. */
  predicate QueryOk(v: Option<Value>, c: Validator, lib: Library) {
    v.None? || !Fails(c, v, lib)
  }

  lemma OneRuleEmpty(r: Rule, req: Request, lib: Library)
    requires |r.checks| == 1
    ensures RuleErrors(r, req, lib) == [] <==>
      (r.optional && FieldValue(req, r.location, r.field).None?) || !Fails(r.checks[0].validator, FieldValue(req, r.location, r.field), lib)
  {
    SingleCheck(r, req, lib);
  }

  lemma OptionalRule(r: Rule, req: Request, lib: Library)
    requires r.optional && |r.checks| == 1
    ensures RuleErrors(r, req, lib) == [] <==> QueryOk(FieldValue(req, r.location, r.field), r.checks[0].validator, lib)
  {
    SingleCheck(r, req, lib);
  }

  /** The listing query: every parameter may be absent; a present page is an
      integer 1-1000, a limit 1-100, processed a boolean text, sortBy one of
      the four fields and sortOrder asc or desc. */
  lemma ListingQueryRules(req: Request, lib: Library)
    ensures AllErrors(ListingSet, req, lib) == [] <==>
      QueryOk(FieldValue(req, Query, "page"), IntBetween(1, 1000), lib)
      && QueryOk(FieldValue(req, Query, "limit"), IntBetween(1, 100), lib)
      && QueryOk(FieldValue(req, Query, "processed"), IsBoolean, lib)
      && QueryOk(FieldValue(req, Query, "sortBy"), OneOf(SortFields), lib)
      && QueryOk(FieldValue(req, Query, "sortOrder"), OneOf(["asc", "desc"]), lib)
  {
    OptionalRule(PageRule, req, lib);
    OptionalRule(LimitRule, req, lib);
    OptionalRule(ProcessedRule, req, lib);
    OptionalRule(SortByRule, req, lib);
    OptionalRule(SortOrderRule, req, lib);
    var rs := ListingSet;
    assert rs[1..][1..][1..][1..][1..] == [];
    AllErrorsCons(rs[0], rs[1..], req, lib);
    AllErrorsCons(rs[1], rs[2..], req, lib);
    AllErrorsCons(rs[2], rs[3..], req, lib);
    AllErrorsCons(rs[3], rs[4..], req, lib);
    AllErrorsCons(rs[4], [], req, lib);
  }

  /** The login set: a valid email, a password of at least six characters, a
      ten-digit mobile and a six-digit otp. */
  lemma LoginRules(req: Request, lib: Library)
    ensures AllErrors(LoginSet, req, lib) == [] <==>
      lib.isEmail(Text(FieldValue(req, Body, "email")))
      && |Text(FieldValue(req, Body, "password"))| >= 6
      && IsDigitsOfLength(Text(FieldValue(req, Body, "mobile")), 10)
      && IsDigitsOfLength(Text(FieldValue(req, Body, "otp")), 6)
  {
    var next := Sanitize(EmailRule, req, lib);
    SanitizeReads(EmailRule, req, lib, Body, "password");
    SanitizeReads(EmailRule, req, lib, Body, "mobile");
    SanitizeReads(EmailRule, req, lib, Body, "otp");
    OneRuleEmpty(EmailRule, req, lib);
    OneRuleEmpty(PasswordRule, next, lib);
    OneRuleEmpty(MobileRule, next, lib);
    OneRuleEmpty(OtpRule, next, lib);
    assert LoginSet == [EmailRule] + ([PasswordRule] + ([MobileRule] + ([OtpRule] + [])));
    AllErrorsCons(EmailRule, [PasswordRule, MobileRule, OtpRule], req, lib);
    AllErrorsCons(PasswordRule, [MobileRule, OtpRule], next, lib);
    AllErrorsCons(MobileRule, [OtpRule], next, lib);
    AllErrorsCons(OtpRule, [], next, lib);
  }

  /** The login middleware hands on the body with `email` replaced by its
      normalised text, and every other field as it came. */
  lemma LoginPassesNormalizedEmail(req: Request, lib: Library)
    ensures var outcome := RunChain(CreateValidation("login").value, req, lib, []);
      var email := FieldValue(req, Body, "email");
      outcome.Continue? ==>
        (email.Some? && !email.value.Arr? ==>
          FieldValue(outcome.req, Body, "email") == Some(Str(lib.normalizeEmail(Text(email)))))
        && (forall f :: f != "email" ==> FieldValue(outcome.req, Body, f) == FieldValue(req, Body, f))
        && outcome.req.params == req.params && outcome.req.query == req.query
  {
    ValidationGate("login", req, lib);
    var next := Sanitize(EmailRule, req, lib);
    var rest := [PasswordRule, MobileRule, OtpRule];
    assert LoginSet[1..] == rest && rest[1..] == [MobileRule, OtpRule] && rest[1..][1..] == [OtpRule];
    assert Sanitized([OtpRule], next, lib) == next;
    assert Sanitized([MobileRule, OtpRule], next, lib) == next;
    assert Sanitized(rest, next, lib) == next;
    SanitizeReads(EmailRule, req, lib, Body, "email");
    forall f | f != "email"
      ensures FieldValue(next, Body, f) == FieldValue(req, Body, f)
    {
      SanitizeReads(EmailRule, req, lib, Body, f);
    }
  }

  // ---------------------------------------------------------------------
  // validateFileUpload

  /** The environment it reads: MAX_FILE_SIZE, MAX_FILES_PER_UPLOAD and
      ALLOWED_FILE_TYPES. */
  datatype UploadEnv = UploadEnv(maxFileSize: Option<string>, maxFiles: Option<string>, allowedTypes: Option<string>)

  /** `parseInt(..) || default` for both limits, and the comma-split type list. */
  datatype Settings = Settings(maxSize: int, maxFiles: int, allowed: seq<string>)

  function SettingsOf(env: UploadEnv): Settings {
    Settings(
      Upload.LimitFrom(env.maxFileSize, Upload.DefaultMaxFileSize),
      Upload.LimitFrom(env.maxFiles, Upload.DefaultMaxFiles),
      Upload.AllowedTypes(env.allowedTypes))
  }

  datatype FileProblem = TooLarge | WrongType

  /** Size is checked before type; the MIME type is compared as it is. */
  function ProblemOf(f: ImageController.UploadedFile, st: Settings): Option<FileProblem> {
    if f.size > st.maxSize then Some(TooLarge) else if f.mimetype !in st.allowed then Some(WrongType) else None
  }

  /** The index of the first file with a problem. */
  function FirstOffender(fs: seq<ImageController.UploadedFile>, st: Settings): (k: Option<nat>)
    ensures k.Some? ==>
      k.value < |fs| && ProblemOf(fs[k.value], st).Some? && forall j :: 0 <= j < k.value ==> ProblemOf(fs[j], st).None?
    ensures k.None? <==> forall j :: 0 <= j < |fs| ==> ProblemOf(fs[j], st).None?
  {
    if fs == [] then None
    else if ProblemOf(fs[0], st).Some? then Some(0)
    else
      var k := FirstOffender(fs[1..], st);
      assert forall j :: 1 <= j < |fs| ==> fs[j] == fs[1..][j - 1];
      if k.Some? then Some(k.value + 1) else None
  }

  function ProblemMessage(f: ImageController.UploadedFile, p: FileProblem, st: Settings): string {
    match p
      case TooLarge => "File " + f.originalname + " exceeds maximum size of " + IntToString(st.maxSize) + " bytes"
      case WrongType => "File " + f.originalname + " has invalid type. Allowed types: " + Join(st.allowed, ", ")
  }

  function MaxFilesMessage(maxFiles: int): string {
    "Maximum " + IntToString(maxFiles) + " files allowed"
  }

  /** What the middleware answers for a file batch. */
  function FileUploadOutcome(files: Option<seq<ImageController.UploadedFile>>, env: UploadEnv): Upload.MiddlewareOutcome {
    var st := SettingsOf(env);
    if files.None? || files.value == [] then Upload.Respond(400, "No files uploaded")
    else if |files.value| > st.maxFiles then Upload.Respond(400, MaxFilesMessage(st.maxFiles))
    else match FirstOffender(files.value, st)
      case None => Upload.Next
      case Some(k) => Upload.Respond(400, ProblemMessage(files.value[k], ProblemOf(files.value[k], st).value, st))
  }

  method ValidateFileUpload(files: Option<seq<ImageController.UploadedFile>>, env: UploadEnv) returns (o: Upload.MiddlewareOutcome)
    ensures o == FileUploadOutcome(files, env)
  {
    if files.None? || |files.value| == 0 {
      return Upload.Respond(400, "No files uploaded");
    }
    var st := SettingsOf(env);
    var maxSize, maxFiles, allowed := st.maxSize, st.maxFiles, st.allowed;
    var fs := files.value;
    if |fs| > maxFiles {
      return Upload.Respond(400, MaxFilesMessage(maxFiles));
    }
    for i := 0 to |fs|
      invariant forall j :: 0 <= j < i ==> ProblemOf(fs[j], st).None?
    {
      var f := fs[i];
      if f.size > maxSize {
        ghost var k := FirstOffender(fs, st);
        assert k.Some? && k.value == i;
        return Upload.Respond(400, ProblemMessage(f, TooLarge, st));
      }
      if f.mimetype !in allowed {
        ghost var k := FirstOffender(fs, st);
        assert k.Some? && k.value == i;
        return Upload.Respond(400, ProblemMessage(f, WrongType, st));
      }
    }
    return Upload.Next;
  }

  /** The batch goes through exactly when it is non-empty, within the count,
      and every file is within the size and of an allowed type. An empty or
      missing batch and an over-long one have their own answers. */
  lemma FileUploadAccepts(files: Option<seq<ImageController.UploadedFile>>, env: UploadEnv)
    ensures var st := SettingsOf(env);
      var o := FileUploadOutcome(files, env);
      (files.None? || files.value == [] ==> o == Upload.Respond(400, "No files uploaded"))
      && (files.Some? && files.value != [] && |files.value| > st.maxFiles ==> o == Upload.Respond(400, MaxFilesMessage(st.maxFiles)))
      && (o == Upload.Next <==>
            (files.Some? && 0 < |files.value| <= st.maxFiles
             && forall j :: 0 <= j < |files.value| ==> files.value[j].size <= st.maxSize && files.value[j].mimetype in st.allowed))
  {
    var st := SettingsOf(env);
    if files.Some? {
      var r := FirstOffender(files.value, st);
      if r.None? {
        forall j | 0 <= j < |files.value|
          ensures files.value[j].size <= st.maxSize && files.value[j].mimetype in st.allowed
        {
          assert ProblemOf(files.value[j], st).None?;
        }
      }
    }
  }

  /** Within the count, the answer names the first offending file: its size
      when it is too large, otherwise its type. */
  lemma FileUploadReportsFirst(files: seq<ImageController.UploadedFile>, env: UploadEnv, k: nat)
    requires 0 < |files| <= SettingsOf(env).maxFiles && k < |files|
    requires forall j :: 0 <= j < k ==> files[j].size <= SettingsOf(env).maxSize && files[j].mimetype in SettingsOf(env).allowed
    requires files[k].size > SettingsOf(env).maxSize || files[k].mimetype !in SettingsOf(env).allowed
    ensures var st := SettingsOf(env);
      FileUploadOutcome(Some(files), env)
        == Upload.Respond(400, if files[k].size > st.maxSize then ProblemMessage(files[k], TooLarge, st) else ProblemMessage(files[k], WrongType, st))
  {
    var st := SettingsOf(env);
    var r := FirstOffender(files, st);
    assert ProblemOf(files[k], st).Some?;
    assert r.Some? && r.value == k;
  }

  // ---------------------------------------------------------------------
  // sanitizeString

  /** What `.` does not match. */
  predicate IsLineTerminator(c: char) { c == '\n' || c == '\r' || c == '\U{2028}' || c == '\U{2029}' }

  /** `t` starts with the lower-case literal `lit`, ignoring ASCII case (the
      `i` flag without `u` folds only ASCII letters onto ASCII letters). */
  predicate StartsIgnoringCase(t: string, lit: string) {
    |lit| <= |t| && Lower(t[..|lit|]) == lit
  }

  /** The index of the first `c` at or after `from`. */
  function IndexFrom(s: string, c: char, from: nat): (r: Option<nat>)
    ensures r.Some? ==>
      from <= r.value < |s| && s[r.value] == c && forall j :: from <= j < r.value ==> s[j] != c
    ensures r.None? ==> forall j :: from <= j < |s| ==> s[j] != c
    decreases |s| - from
  {
    if from >= |s| then None else if s[from] == c then Some(from) else IndexFrom(s, c, from + 1)
  }

  const CloseTag := "</script>"

  /** The lazy `.*?` followed by `<\/script>` at the start of `t`: the length
      up to the end of the first closing tag, provided no line terminator
      comes before it. */
  function ScriptBodyLength(t: string): (n: Option<nat>)
    ensures n.Some? ==> 9 <= n.value <= |t|
  {
    if StartsIgnoringCase(t, CloseTag) then Some(9)
    else if t == [] || IsLineTerminator(t[0]) then None
    else match ScriptBodyLength(t[1..])
      case None => None
      case Some(n) => Some(n + 1)
  }

  /** The length of the match of `/<script[^>]*>.*?<\/script>/i` at the start
      of `s`: `[^>]*>` reaches the first '>' after "<script". */
  function ScriptBlockAt(s: string): (n: Option<nat>)
    ensures n.Some? ==> 0 < n.value <= |s|
  {
    if !StartsIgnoringCase(s, "<script") then None
    else match IndexFrom(s, '>', 7)
      case None => None
      case Some(q) => match ScriptBodyLength(s[q + 1..])
        case None => None
        case Some(n) => Some(q + 1 + n)
  }

  /** `s.replace(/<script[^>]*>.*?<\/script>/gi, '')`: the global search resumes
      after each removed block. */
  function RemoveScripts(s: string): (r: string)
    ensures |r| <= |s|
    decreases |s|
  {
    if s == [] then []
    else match ScriptBlockAt(s)
      case Some(n) => RemoveScripts(s[n..])
      case None => [s[0]] + RemoveScripts(s[1..])
  }

  /** The length of the match of `/<[^>]+>/` at the start of `s`. */
  function TagAt(s: string): (n: Option<nat>)
    ensures n.Some? ==> 2 < n.value <= |s|
  {
    if s == [] || s[0] != '<' then None
    else match IndexFrom(s, '>', 1)
      case None => None
      case Some(q) => if q > 1 then Some(q + 1) else None
  }

  /** One global pass that removes every `<`, at least one character other
      than `>`, and the closing `>` (backend/middleware/validation.js:210). */
  function RemoveTags(s: string): (r: string)
    ensures |r| <= |s|
    decreases |s|
  {
    if s == [] then []
    else match TagAt(s)
      case Some(n) => RemoveTags(s[n..])
      case None => [s[0]] + RemoveTags(s[1..])
  }

  function SanitizeString(s: string): string {
    Trim(RemoveTags(RemoveScripts(s)))
  }

  /** No '<' followed by one or more characters other than '>' and then a '>':
      nothing the tag pattern would match. */
  predicate TagFree(t: string) {
    forall i, j :: 0 <= i < j < |t| && j > i + 1 && t[i] == '<' && t[j] == '>' ==> '>' in t[i + 1..j]
  }

  lemma {:induction false} RemoveTagsKeepsChars(s: string, c: char)
    requires c !in s
    ensures c !in RemoveTags(s)
    decreases |s|
  {
    if s != [] {
      match TagAt(s)
      case Some(n) => RemoveTagsKeepsChars(s[n..], c);
      case None => RemoveTagsKeepsChars(s[1..], c);
    }
  }

  /** Removing tags in one pass cannot leave a tag behind: a '<' that is kept
      has no '>' anywhere after it, or a '>' right after it. */
  lemma {:induction false} RemoveTagsTagFree(s: string)
    ensures TagFree(RemoveTags(s))
    decreases |s|
  {
    if s != [] {
      match TagAt(s)
      case Some(n) => RemoveTagsTagFree(s[n..]);
      case None =>
        var rest := RemoveTags(s[1..]);
        RemoveTagsTagFree(s[1..]);
        if s[0] == '<' {
          var q := IndexFrom(s, '>', 1);
          if q.None? {
            assert '>' !in s[1..];
            RemoveTagsKeepsChars(s[1..], '>');
          } else {
            assert q.value == 1;
            assert s[1..][0] == '>';
            assert rest[0] == '>';
          }
        }
        ConsTagFree(s[0], rest);
    }
  }

  /** A character put before a tag-free string leaves it tag-free, unless it
      is a '<' that a later '>' closes with something in between. */
  lemma ConsTagFree(c: char, rest: string)
    requires TagFree(rest)
    requires c == '<' ==> '>' !in rest || (rest != [] && rest[0] == '>')
    ensures TagFree([c] + rest)
  {
    var t := [c] + rest;
    forall i, j | 0 <= i < j < |t| && j > i + 1 && t[i] == '<' && t[j] == '>'
      ensures '>' in t[i + 1..j]
    {
      ConsTagFreeAt(c, rest, i, j);
    }
  }

  lemma ConsTagFreeAt(c: char, rest: string, i: nat, j: nat)
    requires TagFree(rest)
    requires c == '<' ==> '>' !in rest || (rest != [] && rest[0] == '>')
    requires i + 1 < j < |rest| + 1 && ([c] + rest)[i] == '<' && ([c] + rest)[j] == '>'
    ensures '>' in ([c] + rest)[i + 1..j]
  {
    var t := [c] + rest;
    if i == 0 {
      assert rest[j - 1] == '>';
      assert t[1] == rest[0];
    } else {
      assert rest[i - 1] == '<' && rest[j - 1] == '>';
      assert '>' in rest[i..j - 1];
      assert t[i + 1..j] == rest[i..j - 1];
    }
  }

  lemma TagFreeSlice(t: string, a: nat, b: nat)
    requires TagFree(t) && a <= b <= |t|
    ensures TagFree(t[a..b])
  {
    var u := t[a..b];
    forall i, j | 0 <= i < j < |u| && j > i + 1 && u[i] == '<' && u[j] == '>'
      ensures '>' in u[i + 1..j]
    {
      assert t[a + i] == '<' && t[a + j] == '>';
      var w := t[a + i + 1..a + j];
      var k :| 0 <= k < |w| && w[k] == '>';
      assert u[i + 1..j][k] == w[k];
    }
  }

  lemma TrimIsSlice(t: string)
    ensures exists a, b :: 0 <= a <= b <= |t| && Trim(t) == t[a..b]
  {
    var u := TrimStart(t);
    var a := |t| - |u|;
    assert u == t[a..];
    var r := TrimEnd(u);
    assert r == u[..|r|] == t[a..a + |r|];
  }

  /** Whatever the input, the sanitised string contains no tag. */
  lemma SanitizedIsTagFree(s: string)
    ensures TagFree(SanitizeString(s))
  {
    var t := RemoveTags(RemoveScripts(s));
    RemoveTagsTagFree(RemoveScripts(s));
    TrimIsSlice(t);
    var a, b :| 0 <= a <= b <= |t| && Trim(t) == t[a..b];
    TagFreeSlice(t, a, b);
  }

  lemma {:induction false} NoAngleKept(s: string)
    requires '<' !in s
    ensures RemoveScripts(s) == s && RemoveTags(s) == s
    decreases |s|
  {
    if s != [] {
      if |s| >= 7 {
        assert Lower(s[..7])[0] == LowerChar(s[0]) != '<';
      }
      NoAngleKept(s[1..]);
    }
  }

  /** Text with no '<' is only trimmed. */
  lemma PlainTextOnlyTrimmed(s: string)
    requires '<' !in s
    ensures SanitizeString(s) == Trim(s)
  {
    NoAngleKept(s);
  }

  /** The lazy body passes over characters that are neither line terminators
      nor the start of a closing tag, up to the closing tag at `k`. */
  lemma {:induction false} BodyThenCloseTag(s: string, j: nat, k: nat)
    requires j <= k <= |s| && StartsIgnoringCase(s[k..], CloseTag)
    requires forall m :: j <= m < k ==> !IsLineTerminator(s[m]) && !StartsIgnoringCase(s[m..], CloseTag)
    ensures ScriptBodyLength(s[j..]) == Some(k - j + 9)
    decreases k - j
  {
    if j < k {
      assert s[j..][1..] == s[j + 1..];
      BodyThenCloseTag(s, j + 1, k);
    }
  }

  lemma {:induction false} IndexFromFirst(s: string, c: char, from: nat, q: nat)
    requires from <= q < |s| && s[q] == c
    requires forall j :: from <= j < q ==> s[j] != c
    ensures IndexFrom(s, c, from) == Some(q)
    decreases q - from
  {
    if from < q { IndexFromFirst(s, c, from + 1, q); }
  }

  /** A script block at the start, its opening tag ending at the first '>'
      (at `q`) and its body running to the first closing tag (at `k`) with no
      line break, is removed whole. */
  lemma ScriptBlockRemoved(s: string, q: nat, k: nat)
    requires ScriptBlockShape(s, q, k)
    ensures RemoveScripts(s) == RemoveScripts(s[k + 9..])
  {
    ScriptBlockLength(s, q, k);
    RemoveScriptsSkips(s, k + 9);
  }

  lemma RemoveScriptsSkips(s: string, n: nat)
    requires ScriptBlockAt(s) == Some(n)
    ensures n <= |s| && RemoveScripts(s) == RemoveScripts(s[n..])
  {
  }

  /** A script block at the start of `s` whose opening tag ends at `q` and
      whose closing tag starts at `k`. */
  predicate ScriptBlockShape(s: string, q: nat, k: nat) {
    StartsIgnoringCase(s, "<script")
    && 7 <= q < k <= |s| && s[q] == '>' && (forall j :: 7 <= j < q ==> s[j] != '>')
    && StartsIgnoringCase(s[k..], CloseTag)
    && forall m :: q < m < k ==> !IsLineTerminator(s[m]) && !StartsIgnoringCase(s[m..], CloseTag)
  }

  lemma ScriptBlockLength(s: string, q: nat, k: nat)
    requires ScriptBlockShape(s, q, k)
    ensures ScriptBlockAt(s) == Some(k + 9)
  {
    IndexFromFirst(s, '>', 7, q);
    BodyThenCloseTag(s, q + 1, k);
  }

  // ---------------------------------------------------------------------
  // sanitizeObject and sanitizeInput

  /** One member value as `sanitizeObject` leaves it: a string is sanitised,
      an object or array is walked, anything else is kept. */
  function SanitizeMember(v: Value): Value
    decreases v
  {
    match v
      case Str(s) => Str(SanitizeString(s))
      case Arr(items) => Arr(SanitizeItems(items))
      case Obj(fields) => Obj(SanitizeFields(fields))
      case _ => v
  }

  function SanitizeItems(items: seq<Value>): (r: seq<Value>)
    ensures |r| == |items|
    ensures forall i :: 0 <= i < |items| ==> r[i] == SanitizeMember(items[i])
    decreases items
  {
    if items == [] then [] else [SanitizeMember(items[0])] + SanitizeItems(items[1..])
  }

  function SanitizeFields(fields: seq<Field>): (r: seq<Field>)
    ensures |r| == |fields|
    ensures forall i :: 0 <= i < |fields| ==> r[i] == Field(fields[i].key, SanitizeMember(fields[i].value))
    decreases fields
  {
    if fields == [] then [] else [Field(fields[0].key, SanitizeMember(fields[0].value))] + SanitizeFields(fields[1..])
  }

  /** `sanitizeObject(obj)`: walks the members of an object or array; a string
      or other primitive at the top has no members to rewrite. */
  function SanitizeObject(v: Value): Value {
    if v.Arr? || v.Obj? then SanitizeMember(v) else v
  }

  /** The same keys in the same order, the same array lengths, and the same
      non-string primitives. */
  predicate SameShape(a: Value, b: Value)
    decreases a
  {
    match a
      case Str(_) => b.Str?
      case Arr(xs) => b.Arr? && |b.items| == |xs| && forall i :: 0 <= i < |xs| ==> SameShape(xs[i], b.items[i])
      case Obj(fs) => b.Obj? && |b.fields| == |fs|
        && forall i :: 0 <= i < |fs| ==> b.fields[i].key == fs[i].key && SameShape(fs[i].value, b.fields[i].value)
      case _ => b == a
  }

  /** Every string anywhere in the value is tag-free. */
  predicate StringsTagFree(v: Value)
    decreases v
  {
    match v
      case Str(s) => TagFree(s)
      case Arr(xs) => forall i :: 0 <= i < |xs| ==> StringsTagFree(xs[i])
      case Obj(fs) => forall i :: 0 <= i < |fs| ==> StringsTagFree(fs[i].value)
      case _ => true
  }

  /** Sanitising keeps the structure and leaves no tag in any string. */
  lemma {:induction false} SanitizeMemberProps(v: Value)
    ensures SameShape(v, SanitizeMember(v)) && StringsTagFree(SanitizeMember(v))
    decreases v
  {
    match v
    case Str(s) => SanitizedIsTagFree(s);
    case Arr(xs) =>
      forall i | 0 <= i < |xs| ensures SameShape(xs[i], SanitizeMember(v).items[i]) && StringsTagFree(SanitizeMember(v).items[i]) {
        SanitizeMemberProps(xs[i]);
      }
    case Obj(fs) =>
      forall i | 0 <= i < |fs|
        ensures SanitizeMember(v).fields[i].key == fs[i].key
          && SameShape(fs[i].value, SanitizeMember(v).fields[i].value) && StringsTagFree(SanitizeMember(v).fields[i].value)
      {
        SanitizeMemberProps(fs[i].value);
      }
    case _ =>
  }

  /** `sanitizeInput`: the body and the query are walked when present; route
      parameters are left alone. */
  function SanitizeInput(req: Request): (r: Request)
    ensures r.params == req.params
    ensures req.body.None? <==> r.body.None?
    ensures req.query.None? <==> r.query.None?
  {
    Request(
      if req.body.Some? then Some(SanitizeObject(req.body.value)) else None,
      req.params,
      if req.query.Some? then Some(SanitizeObject(req.query.value)) else None)
  }

  /** After `sanitizeInput`, the body and query objects have their former
      shape and no string member holding a tag. */
  lemma SanitizeInputProps(req: Request)
    requires req.body.Some? && req.body.value.Obj?
    ensures var r := SanitizeInput(req);
      SameShape(req.body.value, r.body.value) && StringsTagFree(r.body.value)
  {
    SanitizeMemberProps(req.body.value);
  }
}
