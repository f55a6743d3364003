/** The front-end service layer of frontend/src/services/api.js: the default
    headers, the request configuration `apiRequest` hands to `fetch`, the
    rule that turns a response into data or an error, and the user-facing
    error classifier. `fetch` itself is its outcome, given as a parameter. */
module Api {
  import opened Wrappers
  import opened Strings

  const DefaultBaseUrl := "http://localhost:3001"
  const JsonType := "application/json"

  /** A headers object; a later spread overwrites a key set earlier. */
  type Headers = map<string, string>

  /** The API base address: the `VITE_API_URL` build variable when it is set
      and non-empty, else the local development server
      (frontend/src/services/api.js:2). */
  function BaseUrl(viteApiUrl: Option<string>): (r: string)
    ensures viteApiUrl.Some? && viteApiUrl.value != "" ==> r == viteApiUrl.value
    ensures viteApiUrl.None? || viteApiUrl.value == "" ==> r == DefaultBaseUrl
  {
    if viteApiUrl.Some? && viteApiUrl.value != "" then viteApiUrl.value else DefaultBaseUrl
  }

  /** The request URL: the base followed by the endpoint. */
  function RequestUrl(viteApiUrl: Option<string>, endpoint: string): (url: string)
    ensures StartsWith(url, BaseUrl(viteApiUrl)) && url[|BaseUrl(viteApiUrl)|..] == endpoint
  {
    BaseUrl(viteApiUrl) + endpoint
  }

  /** `getHeaders(includeAuth)`, with `token` the `authToken` entry of session
      storage (`None` when there is none). */
  function GetHeaders(includeAuth: bool, token: Option<string>): (h: Headers)
    ensures "Content-Type" in h && h["Content-Type"] == JsonType
    ensures "Authorization" in h <==> includeAuth && token.Some? && token.value != ""
    ensures "Authorization" in h ==> h["Authorization"] == "Bearer " + token.value
    ensures forall k :: k in h ==> k == "Content-Type" || k == "Authorization"
  {
    var headers := map["Content-Type" := JsonType];
    if includeAuth && token.Some? && token.value != "" then headers["Authorization" := "Bearer " + token.value]
    else headers
  }

  /** A request body: a JSON text or a `FormData`. */
  datatype Body = JsonText(text: string) | FormData(parts: seq<string>)

  /** The `options` of `apiRequest`; an absent key is `None`. */
  datatype RequestOptions = RequestOptions(httpMethod: string, auth: Option<bool>, headers: Option<Headers>, body: Option<Body>)

  /** What is handed to `fetch`. */
  datatype Config = Config(httpMethod: string, headers: Headers, body: Option<Body>)

  /** The options `apiRequest` hands to `fetch`: the caller's options, with
      the default headers overlaid by the caller's own headers
      (frontend/src/services/api.js:25-30). */
  function RequestConfig(options: RequestOptions, token: Option<string>): (c: Config)
    ensures c.httpMethod == options.httpMethod && c.body == options.body
    ensures forall k :: k in c.headers <==>
      k in GetHeaders(options.auth != Some(false), token) || (options.headers.Some? && k in options.headers.value)
    ensures forall k :: options.headers.Some? && k in options.headers.value ==> c.headers[k] == options.headers.value[k]
    ensures forall k :: (options.headers.None? || k !in options.headers.value) && k in GetHeaders(options.auth != Some(false), token) ==>
      c.headers[k] == GetHeaders(options.auth != Some(false), token)[k]
  {
    Config(options.httpMethod, GetHeaders(options.auth != Some(false), token) + options.headers.GetOr(map[]), options.body)
  }

  /** Authorization is sent exactly when auth is not switched off with
      `auth: false`, a token is stored, and the caller does not set the
      header itself; an absent `auth` counts as requested. */
  lemma AuthUnlessExplicitlyFalse(options: RequestOptions, token: Option<string>)
    requires options.headers.None? || "Authorization" !in options.headers.value
    ensures var h := RequestConfig(options, token).headers;
      ("Authorization" in h <==> options.auth != Some(false) && token.Some? && token.value != "")
      && ("Authorization" in h ==> h["Authorization"] == "Bearer " + token.value)
  {
  }

  /** The options `imageAPI.upload` passes for a form: a POST of the form data
      with an empty header object (frontend/src/services/api.js:87-91). */
  function UploadOptions(formData: seq<string>): RequestOptions {
    RequestOptions("POST", Some(true), Some(map[]), Some(FormData(formData)))
  }

  /** As written, the empty headers object of the upload adds nothing, so the
      multipart body goes out labelled as JSON. */
  lemma AsWrittenUploadSendsJsonType(formData: seq<string>, token: Option<string>)
    ensures var c := RequestConfig(UploadOptions(formData), token);
      "Content-Type" in c.headers && c.headers["Content-Type"] == JsonType && c.body == Some(FormData(formData))
  {
  }

  /** The configuration the comment at the upload means: a `FormData` body
      gets no Content-Type, so that `fetch` writes the multipart boundary. */
  function CorrectedRequestConfig(options: RequestOptions, token: Option<string>): (c: Config)
    ensures c.httpMethod == options.httpMethod && c.body == options.body
  {
    var c := RequestConfig(options, token);
    if options.body.Some? && options.body.value.FormData? then c.(headers := c.headers - {"Content-Type"}) else c
  }

  /** Corrected, the upload carries no Content-Type but keeps the
      Authorization header; every other request is configured as before. */
  lemma CorrectedUploadOmitsJsonType(formData: seq<string>, token: Option<string>, options: RequestOptions)
    ensures var c := CorrectedRequestConfig(UploadOptions(formData), token);
      "Content-Type" !in c.headers
      && ("Authorization" in c.headers <==> token.Some? && token.value != "")
    ensures options.body.None? || !options.body.value.FormData? ==>
      CorrectedRequestConfig(options, token) == RequestConfig(options, token)
  {
    AuthUnlessExplicitlyFalse(UploadOptions(formData), token);
  }

  /** What `response.json()` or `response.text()` gives: parsed JSON, of
      which only the `message` field matters here (`None` when absent or
      falsy), or the text. */
  datatype Data = JsonData(message: Option<string>) | TextData(text: string)

  /** What `fetch` settles with: a rejection (a network failure) or a
      response; `parsed` is the outcome of `response.json()` on its body. */
  datatype Fetched =
    | NetworkFailure(error: string)
    | Response(ok: bool, status: int, contentType: Option<string>, text: string, parsed: Result<Option<string>, string>)

  datatype ApiOutcome = Resolved(data: Data) | Thrown(message: string)

  /** The message of a failed response: the body's own non-empty message when
      it is JSON with one, else a text naming the HTTP status
      (frontend/src/services/api.js). */
  function ErrorMessage(data: Data, status: int): (m: string)
    ensures data.JsonData? && data.message.Some? && data.message.value != "" ==> m == data.message.value
    ensures !(data.JsonData? && data.message.Some? && data.message.value != "") ==>
      m == "HTTP error! status: " + IntToString(status)
  {
    if data.JsonData? && data.message.Some? && data.message.value != "" then data.message.value
    else "HTTP error! status: " + IntToString(status)
  }

  /** The body of `apiRequest` after `fetch`: JSON when the content type
      mentions application/json, text otherwise; a non-OK status throws. */
  function Outcome(fetched: Fetched): (o: ApiOutcome)
    ensures fetched.NetworkFailure? ==> o == Thrown(fetched.error)
    ensures fetched.Response? && fetched.ok && !(fetched.contentType.Some? && Contains(fetched.contentType.value, JsonType)) ==>
      o == Resolved(TextData(fetched.text))
    ensures fetched.Response? && !fetched.ok && !(fetched.contentType.Some? && Contains(fetched.contentType.value, JsonType)) ==>
      o == Thrown("HTTP error! status: " + IntToString(fetched.status))
    ensures o.Resolved? <==> (fetched.Response? && fetched.ok
      && (fetched.contentType.Some? && Contains(fetched.contentType.value, JsonType) ==> fetched.parsed.Ok?))
  {
    match fetched
    case NetworkFailure(e) => Thrown(e)
    case Response(ok, status, contentType, text, parsed) =>
      var isJson := contentType.Some? && Contains(contentType.value, JsonType);
      if isJson && parsed.Err? then Thrown(parsed.error)
      else
        var data := if isJson then JsonData(parsed.value) else TextData(text);
        if !ok then Thrown(ErrorMessage(data, status)) else Resolved(data)
  }

  /** `apiRequest(endpoint, options)`: the URL and configuration handed to
      `fetch`, and how the call settles. */
  function ApiRequest(viteApiUrl: Option<string>, endpoint: string, options: RequestOptions, token: Option<string>,
                      fetched: Fetched): (r: (string, Config, ApiOutcome))
    ensures r.0 == RequestUrl(viteApiUrl, endpoint) && r.1 == RequestConfig(options, token) && r.2 == Outcome(fetched)
  {
    (RequestUrl(viteApiUrl, endpoint), RequestConfig(options, token), Outcome(fetched))
  }

  // ---------------------------------------------------------------------
  // handleApiError

  const NetworkText := "Network error. Please check your connection."
  const AuthText := "Authentication failed. Please log in again."
  const ForbiddenText := "Access denied. You do not have permission."
  const NotFoundText := "Resource not found."
  const ServerText := "Server error. Please try again later."
  const UnexpectedText := "An unexpected error occurred."

  /** `handleApiError(error)` on `error.message`. */
  function HandleApiError(message: string): string {
    if Contains(message, "Failed to fetch") then NetworkText
    else if Contains(message, "401") then AuthText
    else if Contains(message, "403") then ForbiddenText
    else if Contains(message, "404") then NotFoundText
    else if Contains(message, "500") then ServerText
    else if message != "" then message
    else UnexpectedText
  }

  /** The classifier as a table of (needle, text), checked in order. */
  const ErrorRules: seq<(string, string)> := [
    ("Failed to fetch", NetworkText), ("401", AuthText), ("403", ForbiddenText),
    ("404", NotFoundText), ("500", ServerText)]

  /** The text of the first rule whose needle occurs in `message`. */
  function FirstMatch(rules: seq<(string, string)>, message: string): (r: Option<string>)
    ensures r.None? <==> forall i :: 0 <= i < |rules| ==> !Contains(message, rules[i].0)
    ensures r.Some? ==> exists i :: 0 <= i < |rules| && Contains(message, rules[i].0) && r.value == rules[i].1
                                    && forall j :: 0 <= j < i ==> !Contains(message, rules[j].0)
  {
    if rules == [] then None
    else if Contains(message, rules[0].0) then Some(rules[0].1)
    else
      var r := FirstMatch(rules[1..], message);
      assert r.Some? ==> exists i :: 1 <= i < |rules| && Contains(message, rules[i].0) && r.value == rules[i].1
                                     && forall j :: 0 <= j < i ==> !Contains(message, rules[j].0) by {
        if r.Some? {
          var i :| 0 <= i < |rules[1..]| && Contains(message, rules[1..][i].0) && r.value == rules[1..][i].1
                   && forall j :: 0 <= j < i ==> !Contains(message, rules[1..][j].0);
          assert forall j :: 0 <= j < i + 1 ==> !Contains(message, rules[j].0) by {
            forall j | 0 <= j < i + 1 ensures !Contains(message, rules[j].0) {
              if j > 0 { assert rules[j] == rules[1..][j - 1]; }
            }
          }
        }
      }
      r
  }

  lemma FirstMatchCons(rule: (string, string), rest: seq<(string, string)>, message: string)
    ensures FirstMatch([rule] + rest, message)
      == if Contains(message, rule.0) then Some(rule.1) else FirstMatch(rest, message)
  {
    assert ([rule] + rest)[1..] == rest;
  }

  /** The first needle that occurs decides; with none, the message itself,
      or the default text when it is empty. */
  lemma HandleApiErrorIsFirstMatch(message: string)
    ensures var m := FirstMatch(ErrorRules, message);
      HandleApiError(message) == (if m.Some? then m.value else if message != "" then message else UnexpectedText)
  {
    var r4: seq<(string, string)> := [("500", ServerText)];
    var r3 := [("404", NotFoundText)] + r4;
    var r2 := [("403", ForbiddenText)] + r3;
    var r1 := [("401", AuthText)] + r2;
    assert ErrorRules == [("Failed to fetch", NetworkText)] + r1;
    FirstMatchCons(("500", ServerText), [], message);
    assert r4 == [("500", ServerText)] + [];
    FirstMatchCons(("404", NotFoundText), r4, message);
    FirstMatchCons(("403", ForbiddenText), r3, message);
    FirstMatchCons(("401", AuthText), r2, message);
    FirstMatchCons(("Failed to fetch", NetworkText), r1, message);
  }

  /** A character of the needle that the text lacks rules the needle out. */
  lemma MissingCharNotContained(s: string, sub: string, c: char)
    requires c in sub && c !in s
    ensures !Contains(s, sub)
  {
    var k :| 0 <= k < |sub| && sub[k] == c;
    forall i | 0 <= i <= |s| - |sub| ensures !OccursAt(s, sub, i) {
      assert s[i..i + |sub|][k] == s[i + k];
      assert s[i + k] in s;
    }
  }

  const HttpErrorPrefix := "HTTP error! status: "

  /** The prefix holds no digit and no 'F'. */
  lemma NotInMessage(d: string, c: char)
    requires c !in d && (IsDigit(c) || c == 'F')
    ensures c !in HttpErrorPrefix + d
  {
    var p := HttpErrorPrefix;
    var m := p + d;
    forall i | 0 <= i < |m| ensures m[i] != c {
      if i < |p| {
        assert m[i] == p[i];
      } else {
        assert m[i] == d[i - |p|];
      }
    }
  }

  /** The message an HTTP error without a `message` field carries contains
      its status and no 'F'. */
  lemma StatusMessage(text: string, status: nat)
    ensures ErrorMessage(TextData(text), status) == HttpErrorPrefix + IntToString(status)
    ensures Contains(ErrorMessage(TextData(text), status), IntToString(status))
    ensures !Contains(ErrorMessage(TextData(text), status), "Failed to fetch")
  {
    var d := IntToString(status);
    ContainsItself(d);
    ContainsWithin(HttpErrorPrefix, d, "", d);
    assert HttpErrorPrefix + d + "" == HttpErrorPrefix + d;
    assert 'F' !in d by {
      forall i | 0 <= i < |d| ensures d[i] != 'F' {
        assert IsDigit(d[i]);
      }
    }
    NotInMessage(d, 'F');
    MissingCharNotContained(HttpErrorPrefix + d, "Failed to fetch", 'F');
  }

  /** A status whose digits lack `c` is not classified by a needle holding `c`. */
  lemma StatusLacks(text: string, status: nat, needle: string, c: char)
    requires IsDigit(c) && c !in IntToString(status) && c in needle
    ensures !Contains(ErrorMessage(TextData(text), status), needle)
  {
    StatusMessage(text, status);
    NotInMessage(IntToString(status), c);
    MissingCharNotContained(HttpErrorPrefix + IntToString(status), needle, c);
  }

  lemma Status401Classified(text: string)
    ensures HandleApiError(ErrorMessage(TextData(text), 401)) == AuthText
  {
    assert IntToString(401) == "401";
    StatusMessage(text, 401);
  }

  lemma Status403Classified(text: string)
    ensures HandleApiError(ErrorMessage(TextData(text), 403)) == ForbiddenText
  {
    assert IntToString(403) == "403";
    StatusMessage(text, 403);
    StatusLacks(text, 403, "401", '1');
  }

  lemma Status404Classified(text: string)
    ensures HandleApiError(ErrorMessage(TextData(text), 404)) == NotFoundText
  {
    assert IntToString(404) == "404";
    StatusMessage(text, 404);
    StatusLacks(text, 404, "401", '1');
    StatusLacks(text, 404, "403", '3');
  }

  lemma Status500Classified(text: string)
    ensures HandleApiError(ErrorMessage(TextData(text), 500)) == ServerText
  {
    assert IntToString(500) == "500";
    StatusMessage(text, 500);
    StatusLacks(text, 500, "401", '4');
    StatusLacks(text, 500, "403", '4');
    StatusLacks(text, 500, "404", '4');
  }

  /** An HTTP error without a message is classified by its status. */
  lemma HttpStatusClassified(text: string)
    ensures HandleApiError(ErrorMessage(TextData(text), 401)) == AuthText
    ensures HandleApiError(ErrorMessage(TextData(text), 403)) == ForbiddenText
    ensures HandleApiError(ErrorMessage(TextData(text), 404)) == NotFoundText
    ensures HandleApiError(ErrorMessage(TextData(text), 500)) == ServerText
  {
    Status401Classified(text);
    Status403Classified(text);
    Status404Classified(text);
    Status500Classified(text);
  }

  /** A network failure reads as the connection message. */
  lemma NetworkFailureClassified()
    ensures HandleApiError(Outcome(NetworkFailure("Failed to fetch")).message) == NetworkText
  {
    ContainsItself("Failed to fetch");
  }
}
